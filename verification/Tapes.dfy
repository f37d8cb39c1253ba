/**
 What a tar file is, said by a writer: extension headers and header blocks, each with its body filled up to whole
 blocks. What has been written is what the reader gives, whatever follows; and where nothing proper follows, it says so.
 */
module Tapes {
  import opened Basics
  import opened Packages
  import opened Tar
  import opened Extraction

  /*** Writing ***/

  /** An extension header: its block, its body, and what fills the body's last block. */
  datatype Preamble = Preamble(block: Bytes, body: Bytes, fill: Bytes)

  /** A file in a tar file: extension headers first, then its own block, its body, and what fills the last block. */
  datatype Record = Record(
    preambles: seq<Preamble>, block: Bytes, name: string, regular: bool, body: Bytes, fill: Bytes)

  function Bodies(preambles: seq<Preamble>): (bodies: seq<Bytes>)
    ensures |bodies| == |preambles| && forall i :: 0 <= i < |bodies| ==> bodies[i] == preambles[i].body
  {
    seq(|preambles|, i requires 0 <= i < |preambles| => preambles[i].body)
  }

  /** A header block is 512 bytes, not all of them zero. */
  predicate IsBlock(block: Bytes) { |block| == 512 && exists i :: 0 <= i < 512 && block[i] != 0 }

  /** The body ends with a whole block, and no block is wasted. */
  predicate Fills(body: Bytes, fill: Bytes) { |fill| < 512 && (|body| + |fill|) % 512 == 0 }

  /** After the extensions before it, the parser takes the i-th block for an extension header of this size. */
  predicate PreambleOk(parse: Parser, preambles: seq<Preamble>, i: nat)
    requires i < |preambles|
  {
    var p := preambles[i];
    IsBlock(p.block) && Fills(p.body, p.fill) && parse(Bodies(preambles[..i]), p.block) == Extension(|p.body|)
  }

  predicate PreamblesOk(parse: Parser, preambles: seq<Preamble>) {
    forall i :: 0 <= i < |preambles| ==> PreambleOk(parse, preambles, i)
  }

  /** After its extensions, the parser takes the record's block for a header of just this file. */
  predicate HeaderOk(parse: Parser, r: Record) {
    PreamblesOk(parse, r.preambles) && IsBlock(r.block)
    && parse(Bodies(r.preambles), r.block) == Header(r.name, r.regular, |r.body|)
  }

  predicate RecordOk(parse: Parser, r: Record) { HeaderOk(parse, r) && Fills(r.body, r.fill) }

  predicate RecordsOk(parse: Parser, records: seq<Record>) {
    forall i :: 0 <= i < |records| ==> RecordOk(parse, records[i])
  }

  function WrittenPreambles(preambles: seq<Preamble>): Bytes {
    if preambles == [] then []
    else preambles[0].block + preambles[0].body + preambles[0].fill + WrittenPreambles(preambles[1..])
  }

  function WrittenRecord(r: Record): Bytes { WrittenPreambles(r.preambles) + r.block + r.body + r.fill }

  function Written(records: seq<Record>): Bytes {
    if records == [] then [] else WrittenRecord(records[0]) + Written(records[1..])
  }

  /** The entry that a record is. */
  function EntryOf(r: Record): Entry { Entry(r.name, r.regular, |r.body|, r.body) }

  function EntriesOf(records: seq<Record>): (entries: seq<Entry>)
    ensures |entries| == |records| && forall i :: 0 <= i < |entries| ==> entries[i] == EntryOf(records[i])
  {
    seq(|records|, i requires 0 <= i < |records| => EntryOf(records[i]))
  }

  /*** Reading what was written ***/

  /** These bytes stand in the stream at pos. */
  predicate StandsAt(s: Stream, pos: nat, bytes: Bytes) {
    pos + |bytes| <= |s.bytes| && s.bytes[pos..pos + |bytes|] == bytes
  }

  lemma StandsInParts(s: Stream, pos: nat, a: Bytes, b: Bytes)
    requires StandsAt(s, pos, a + b)
    ensures StandsAt(s, pos, a) && StandsAt(s, pos + |a|, b)
  {
    var both := s.bytes[pos..pos + |a + b|];
    assert both[..|a|] == a && both[|a|..] == b;
    assert both[..|a|] == s.bytes[pos..pos + |a|];
    assert both[|a|..] == s.bytes[pos + |a|..pos + |a| + |b|];
  }

  lemma FillIsPadding(body: Bytes, fill: Bytes)
    requires Fills(body, fill)
    ensures |fill| == Padding(|body|)
  {
  }

  lemma BlocksAreNotZero(block: Bytes)
    requires IsBlock(block)
    ensures !IsZero(block)
  {
  }

  lemma PreambleStands(s: Stream, pos: nat, p: Preamble)
    requires StandsAt(s, pos, p.block + p.body + p.fill) && IsBlock(p.block) && Fills(p.body, p.fill)
    ensures StandsAt(s, pos, p.block) && StandsAt(s, pos + 512, p.body)
    ensures pos + 512 + |p.body| + Padding(|p.body|) == pos + |p.block + p.body + p.fill| <= |s.bytes|
  {
    StandsInParts(s, pos, p.block + p.body, p.fill);
    StandsInParts(s, pos, p.block, p.body);
    FillIsPadding(p.body, p.fill);
  }

  lemma BodyIsReadOver(parse: Parser, s: Stream, pos: nat, before: seq<Bytes>, block: Bytes, body: Bytes, next: Next)
    requires StandsAt(s, pos, block) && StandsAt(s, pos + 512, body)
    requires pos + 512 + |body| + Padding(|body|) <= |s.bytes|
    requires IsBlock(block) && parse(before, block) == Extension(|body|)
    requires ReadHeader(parse, s, pos + 512 + |body| + Padding(|body|), before + [body]) == next
    ensures ReadHeader(parse, s, pos, before) == next
  {
    WholeBodyIsPassed(parse, s, pos + 512, before, body, next);
    BlockIsPassed(parse, s, pos, before, block, |body|, next);
  }

  lemma BlockIsPassed(parse: Parser, s: Stream, pos: nat, before: seq<Bytes>, block: Bytes, size: nat, next: Next)
    requires StandsAt(s, pos, block) && IsBlock(block) && parse(before, block) == Extension(size)
    requires AfterExtension(parse, s, pos + 512, size, before) == next
    ensures ReadHeader(parse, s, pos, before) == next
  {
    BlocksAreNotZero(block);
    ReadExtension(parse, s, pos, before);
  }

  lemma WholeBodyIsPassed(parse: Parser, s: Stream, pos: nat, before: seq<Bytes>, body: Bytes, next: Next)
    requires StandsAt(s, pos, body) && pos + |body| + Padding(|body|) <= |s.bytes|
    requires ReadHeader(parse, s, pos + |body| + Padding(|body|), before + [body]) == next
    ensures AfterExtension(parse, s, pos, |body|, before) == next
  {
    AfterWholeExtension(parse, s, pos, body, before);
  }

  /** What is found behind an extension is found from its beginning on. */
  lemma OnePreamble(parse: Parser, s: Stream, pos: nat, before: seq<Bytes>, p: Preamble, next: Next)
    requires StandsAt(s, pos, p.block + p.body + p.fill)
    requires IsBlock(p.block) && Fills(p.body, p.fill) && parse(before, p.block) == Extension(|p.body|)
    requires ReadHeader(parse, s, pos + |p.block + p.body + p.fill|, before + [p.body]) == next
    ensures ReadHeader(parse, s, pos, before) == next
  {
    PreambleStands(s, pos, p);
    BodyIsReadOver(parse, s, pos, before, p.block, p.body, next);
  }

  lemma UnfoldPreambles(preambles: seq<Preamble>, i: nat)
    requires i < |preambles|
    ensures var p := preambles[i];
            && WrittenPreambles(preambles[i..])
               == p.block + p.body + p.fill + WrittenPreambles(preambles[i + 1..])
            && Bodies(preambles[..i]) + [p.body] == Bodies(preambles[..i + 1])
  {
    assert preambles[i..][1..] == preambles[i + 1..];
  }

  /** From where, and after which extensions, a header is to be read. */
  type HeaderReader = (nat, seq<Bytes>) -> Next

  predicate Asked(pos: nat, before: seq<Bytes>) { true }

  /** `read` reads headers; the trigger keeps how it does that out of sight where nothing is read. */
  ghost predicate ReadsHeaders(parse: Parser, s: Stream, read: HeaderReader) {
    forall pos: nat, before {:trigger Asked(pos, before)} ::
      pos <= |s.bytes| ==> read(pos, before) == ReadHeader(parse, s, pos, before)
  }

  lemma HeaderReaderOf(parse: Parser, s: Stream) returns (read: HeaderReader)
    ensures ReadsHeaders(parse, s, read)
  {
    read := (pos: nat, before: seq<Bytes>) =>
      if pos <= |s.bytes| then ReadHeader(parse, s, pos, before) else Bad(|s.bytes|);
  }

  lemma ReadOverOne(
    parse: Parser, s: Stream, read: HeaderReader, pos: nat, before: seq<Bytes>, p: Preamble, rest: Bytes)
    requires ReadsHeaders(parse, s, read) && StandsAt(s, pos, p.block + p.body + p.fill + rest)
    requires IsBlock(p.block) && Fills(p.body, p.fill) && parse(before, p.block) == Extension(|p.body|)
    ensures StandsAt(s, pos + |p.block + p.body + p.fill|, rest)
    ensures read(pos, before) == read(pos + |p.block + p.body + p.fill|, before + [p.body])
  {
    StandsInParts(s, pos, p.block + p.body + p.fill, rest);
    var after := pos + |p.block + p.body + p.fill|;
    assert Asked(pos, before) && Asked(after, before + [p.body]);
    OnePreamble(parse, s, pos, before, p, read(after, before + [p.body]));
  }

  /** Reading on from some of the extension headers is reading on from the end of them. */
  lemma {:induction false} ReadOverPreambles(
    parse: Parser, s: Stream, read: HeaderReader, pos: nat, preambles: seq<Preamble>, i: nat, end: nat)
    requires ReadsHeaders(parse, s, read) && PreamblesOk(parse, preambles) && i <= |preambles|
    requires StandsAt(s, pos, WrittenPreambles(preambles[i..])) && end == pos + |WrittenPreambles(preambles[i..])|
    ensures read(pos, Bodies(preambles[..i])) == read(end, Bodies(preambles))
    decreases |preambles| - i
  {
    if i == |preambles| {
      assert preambles[..i] == preambles;
    } else {
      var p := preambles[i];
      assert PreambleOk(parse, preambles, i);
      UnfoldPreambles(preambles, i);
      ReadOverOne(parse, s, read, pos, Bodies(preambles[..i]), p, WrittenPreambles(preambles[i + 1..]));
      ReadOverPreambles(parse, s, read, pos + |p.block + p.body + p.fill|, preambles, i + 1, end);
    }
  }

  /** What is found behind extensions is found from their beginning on. */
  lemma PreamblesLeadOn(parse: Parser, s: Stream, pos: nat, preambles: seq<Preamble>, next: Next)
    requires PreamblesOk(parse, preambles) && StandsAt(s, pos, WrittenPreambles(preambles))
    requires ReadHeader(parse, s, pos + |WrittenPreambles(preambles)|, Bodies(preambles)) == next
    ensures ReadHeader(parse, s, pos, []) == next
  {
    var end := pos + |WrittenPreambles(preambles)|;
    var read := HeaderReaderOf(parse, s);
    assert preambles[0..] == preambles && Bodies(preambles[..0]) == [];
    ReadOverPreambles(parse, s, read, pos, preambles, 0, end);
    assert Asked(pos, []) && Asked(end, Bodies(preambles));
  }

  /** A record's header is found behind its extensions. */
  lemma HeaderIsFound(parse: Parser, s: Stream, pos: nat, r: Record)
    requires HeaderOk(parse, r) && StandsAt(s, pos, WrittenPreambles(r.preambles) + r.block)
    ensures ReadHeader(parse, s, pos, []) ==
            Found(pos + |WrittenPreambles(r.preambles) + r.block|, Header(r.name, r.regular, |r.body|))
  {
    StandsInParts(s, pos, WrittenPreambles(r.preambles), r.block);
    BlocksAreNotZero(r.block);
    PreamblesLeadOn(parse, s, pos, r.preambles,
                    Found(pos + |WrittenPreambles(r.preambles) + r.block|, Header(r.name, r.regular, |r.body|)));
  }

  /*** Reading on ***/

  function Prepended(e: Entry, rest: Reading): Reading { Reading([e] + rest.entries, rest.clean, rest.consumed) }

  function PrependedAll(entries: seq<Entry>, rest: Reading): Reading {
    Reading(entries + rest.entries, rest.clean, rest.consumed)
  }

  /** What is still to be skipped may as well be gone. */
  lemma SkippedIsGone(parse: Parser, s: Stream, pos: nat, left: nat, pad: nat)
    requires pos + left + pad <= |s.bytes|
    ensures ReadAll(parse, s, pos, left, pad) == ReadAll(parse, s, pos + left + pad, 0, 0)
  {
  }

  lemma NextIsFound(parse: Parser, s: Stream, pos: nat, r: Record)
    requires HeaderOk(parse, r) && StandsAt(s, pos, WrittenPreambles(r.preambles) + r.block)
    ensures NextHeader(parse, s, pos, 0, 0) ==
            Found(pos + |WrittenPreambles(r.preambles) + r.block|, Header(r.name, r.regular, |r.body|))
  {
    HeaderIsFound(parse, s, pos, r);
  }

  lemma RecordStands(s: Stream, pos: nat, r: Record)
    requires StandsAt(s, pos, WrittenRecord(r))
    ensures var head := WrittenPreambles(r.preambles) + r.block;
            && StandsAt(s, pos, head) && StandsAt(s, pos + |head|, r.body)
            && pos + |head| + |r.body| + |r.fill| == pos + |WrittenRecord(r)| <= |s.bytes|
  {
    var head := WrittenPreambles(r.preambles) + r.block;
    StandsInParts(s, pos, head + r.body, r.fill);
    StandsInParts(s, pos, head, r.body);
  }

  /** What there is to read from a place on: with nothing left to be skipped, or just behind a header. */
  datatype Outlook = Outlook(from: nat -> Reading, behind: (nat, Parsed) -> Reading)

  predicate Here(pos: nat) { true }

  predicate Behind(pos: nat, header: Parsed) { true }

  /** `all` tells what there is to read; the triggers keep how out of sight where nothing is read. */
  ghost predicate ReadsAll(parse: Parser, s: Stream, all: Outlook) {
    && (forall pos: nat {:trigger Here(pos)} :: pos <= |s.bytes| ==> all.from(pos) == ReadAll(parse, s, pos, 0, 0))
    && (forall pos: nat, header: Parsed {:trigger Behind(pos, header)} ::
          pos <= |s.bytes| && header.Header? ==> all.behind(pos, header) == AfterHeader(parse, s, pos, header))
  }

  lemma OutlookOf(parse: Parser, s: Stream) returns (all: Outlook)
    ensures ReadsAll(parse, s, all)
  {
    var nothing := Reading([], false, |s.bytes|);
    all := Outlook(
      (pos: nat) => if pos <= |s.bytes| then ReadAll(parse, s, pos, 0, 0) else nothing,
      (pos: nat, header: Parsed) =>
        if pos <= |s.bytes| && header.Header? then AfterHeader(parse, s, pos, header) else nothing);
  }

  lemma HeadIsRead(parse: Parser, s: Stream, all: Outlook, pos: nat, r: Record)
    requires ReadsAll(parse, s, all) && HeaderOk(parse, r)
    requires StandsAt(s, pos, WrittenPreambles(r.preambles) + r.block)
    ensures all.from(pos) ==
            all.behind(pos + |WrittenPreambles(r.preambles) + r.block|, Header(r.name, r.regular, |r.body|))
  {
    var next, header := pos + |WrittenPreambles(r.preambles) + r.block|, Header(r.name, r.regular, |r.body|);
    NextIsFound(parse, s, pos, r);
    ReadAllFound(parse, s, pos, 0, 0);
    assert Here(pos) && Behind(next, header);
  }

  /** After the header: the entry, and what comes after its body and the filling. */
  lemma BodyIsRead(parse: Parser, s: Stream, pos: nat, r: Record)
    requires Fills(r.body, r.fill) && StandsAt(s, pos, r.body) && pos + |r.body| + |r.fill| <= |s.bytes|
    ensures AfterHeader(parse, s, pos, Header(r.name, r.regular, |r.body|)) ==
            Prepended(EntryOf(r), ReadAll(parse, s, pos + |r.body| + |r.fill|, 0, 0))
  {
    FillIsPadding(r.body, r.fill);
    SkippedIsGone(parse, s, pos, |r.body|, |r.fill|);
  }

  lemma BodyIsSeen(parse: Parser, s: Stream, all: Outlook, pos: nat, r: Record)
    requires ReadsAll(parse, s, all)
    requires Fills(r.body, r.fill) && StandsAt(s, pos, r.body) && pos + |r.body| + |r.fill| <= |s.bytes|
    ensures all.behind(pos, Header(r.name, r.regular, |r.body|)) ==
            Prepended(EntryOf(r), all.from(pos + |r.body| + |r.fill|))
  {
    BodyIsRead(parse, s, pos, r);
    assert Here(pos + |r.body| + |r.fill|) && Behind(pos, Header(r.name, r.regular, |r.body|));
  }

  /** A written record reads as its entry, and what comes after it as if nothing had been before. */
  lemma RecordIsRead(parse: Parser, s: Stream, all: Outlook, pos: nat, r: Record)
    requires ReadsAll(parse, s, all) && RecordOk(parse, r) && StandsAt(s, pos, WrittenRecord(r))
    ensures all.from(pos) == Prepended(EntryOf(r), all.from(pos + |WrittenRecord(r)|))
  {
    RecordStands(s, pos, r);
    HeadIsRead(parse, s, all, pos, r);
    BodyIsSeen(parse, s, all, pos + |WrittenPreambles(r.preambles) + r.block|, r);
  }

  lemma UnfoldWritten(records: seq<Record>, i: nat)
    requires i < |records|
    ensures Written(records[i..]) == WrittenRecord(records[i]) + Written(records[i + 1..])
    ensures EntriesOf(records[i..]) == [EntryOf(records[i])] + EntriesOf(records[i + 1..])
  {
    assert records[i..][1..] == records[i + 1..];
  }

  /** One record is read, and the others are known to be read. */
  lemma OneMoreIsRead(
    parse: Parser, s: Stream, all: Outlook, pos: nat, r: Record, entries: seq<Entry>, next: nat, end: nat)
    requires ReadsAll(parse, s, all) && RecordOk(parse, r) && StandsAt(s, pos, WrittenRecord(r))
    requires next == pos + |WrittenRecord(r)| && all.from(next) == PrependedAll(entries, all.from(end))
    ensures all.from(pos) == PrependedAll([EntryOf(r)] + entries, all.from(end))
  {
    RecordIsRead(parse, s, all, pos, r);
    PrependOneMore(EntryOf(r), entries, all.from(end));
  }

  lemma PrependOneMore(e: Entry, entries: seq<Entry>, rest: Reading)
    ensures PrependedAll([e] + entries, rest) == Prepended(e, PrependedAll(entries, rest))
  {
    assert [e] + entries + rest.entries == [e] + (entries + rest.entries);
  }

  lemma NothingPrepended(rest: Reading)
    ensures PrependedAll(EntriesOf([]), rest) == rest
  {
    assert EntriesOf([]) + rest.entries == rest.entries;
  }

  /** From the i-th record on, all that was written reads as its entries, whatever comes after it. */
  lemma {:induction false} WrittenIsRead(
    parse: Parser, s: Stream, all: Outlook, pos: nat, records: seq<Record>, i: nat, end: nat)
    requires ReadsAll(parse, s, all) && RecordsOk(parse, records) && i <= |records|
    requires StandsAt(s, pos, Written(records[i..])) && end == pos + |Written(records[i..])|
    ensures all.from(pos) == PrependedAll(EntriesOf(records[i..]), all.from(end))
    decreases |records| - i
  {
    if i == |records| {
      NothingPrepended(all.from(pos));
    } else {
      UnfoldWritten(records, i);
      StandsInParts(s, pos, WrittenRecord(records[i]), Written(records[i + 1..]));
      var next := pos + |WrittenRecord(records[i])|;
      WrittenIsRead(parse, s, all, next, records, i + 1, end);
      OneMoreIsRead(parse, s, all, pos, records[i], EntriesOf(records[i + 1..]), next, end);
    }
  }

  /*** Whole files ***/

  predicate Zeros(bytes: Bytes) { forall i :: 0 <= i < |bytes| ==> bytes[i] == 0 }

  /** Where the two zero blocks stand, the file has come to its clean end. */
  lemma EndIsRead(parse: Parser, s: Stream, all: Outlook, pos: nat)
    requires ReadsAll(parse, s, all) && pos + 1024 <= |s.bytes| && Zeros(s.bytes[pos..pos + 1024])
    ensures all.from(pos) == Reading([], true, pos + 1024)
  {
    var end := s.bytes[pos..pos + 1024];
    assert s.bytes[pos..pos + 512] == end[..512] && s.bytes[pos + 512..pos + 1024] == end[512..];
    assert Here(pos);
  }

  /** What a file of these records reads as, when the reading from its end on comes to `rest`. */
  lemma WholeIsRead(parse: Parser, s: Stream, all: Outlook, records: seq<Record>)
    requires ReadsAll(parse, s, all) && RecordsOk(parse, records) && StandsAt(s, 0, Written(records))
    ensures Contents(parse, s) == PrependedAll(EntriesOf(records), all.from(|Written(records)|))
  {
    assert records[0..] == records;
    WrittenIsRead(parse, s, all, 0, records, 0, |Written(records)|);
    assert Here(0);
  }

  /**
   The round trip: of every tar file with two zero blocks at its end, the reader gives exactly the files that were
   written, whatever their extension headers and sizes, whatever stands behind the end, and comes to a clean end.
   */
  lemma TapesReadBack(parse: Parser, records: seq<Record>, zeros: Bytes, trailer: Bytes, broken: bool)
    requires RecordsOk(parse, records) && |zeros| == 1024 && Zeros(zeros)
    ensures Contents(parse, Stream(Written(records) + zeros + trailer, broken)) ==
            Reading(EntriesOf(records), true, |Written(records)| + 1024)
  {
    var s, n := Stream(Written(records) + zeros + trailer, broken), |Written(records)|;
    var all := OutlookOf(parse, s);
    assert s.bytes[..n] == Written(records) && s.bytes[n..n + 1024] == zeros;
    WholeIsRead(parse, s, all, records);
    EndIsRead(parse, s, all, n);
    assert EntriesOf(records) + [] == EntriesOf(records);
  }

  /** The same for the extraction: it finds the member exactly if it is among the files written, within the limit. */
  lemma WrittenMembersAreFound(
    parse: Parser, records: seq<Record>, zeros: Bytes, trailer: Bytes, broken: bool, limit: nat, member: string,
    body: Bytes)
    requires RecordsOk(parse, records) && |zeros| == 1024 && Zeros(zeros)
    ensures TarHolds(parse, Stream(Written(records) + zeros + trailer, broken), limit, member, body) <==>
            |Written(records)| + 1024 <= limit && UniqueMember(EntriesOf(records), member) == Some(body)
  {
    TapesReadBack(parse, records, zeros, trailer, broken);
    BudgetOnlyRefuses(parse, Stream(Written(records) + zeros + trailer, broken), limit, member, body);
  }

  /*** Files that end otherwise ***/

  /** No file begins here: too few bytes, a zero block, a bad header, or a body that is not there in full. */
  predicate Headless(parse: Parser, before: seq<Bytes>, tail: Bytes) {
    |tail| < 512 || Zeros(tail[..512])
    || match parse(before, tail[..512])
       case BadHeader => true
       case Extension(size) => |tail| < 512 + size
       case Header(_, _, size) => |tail| < 512 + size
  }

  /** A clean end: nothing at all, or zero blocks, one or two of them, and then nothing that would count. */
  predicate EndsCleanly(tail: Bytes, broken: bool) {
    if |tail| == 0 then !broken
    else if |tail| == 512 then Zeros(tail) && !broken
    else |tail| >= 1024 && Zeros(tail[..1024])
  }

  lemma ZerosInBlocks(tail: Bytes)
    requires |tail| >= 1024
    ensures Zeros(tail[..1024]) <==> IsZero(tail[..512]) && IsZero(tail[512..1024])
  {
    var both := tail[..1024];
    assert both[..512] == tail[..512] && both[512..] == tail[512..1024];
  }

  lemma SlicesOfTail(s: Stream, pos: nat, tail: Bytes)
    requires pos <= |s.bytes| && tail == s.bytes[pos..]
    ensures forall a, b :: 0 <= a <= b <= |tail| ==> tail[a..b] == s.bytes[pos + a..pos + b]
  {
  }

  /** What is made of a place where no file begins. */
  lemma HeadlessIsJudged(parse: Parser, s: Stream, pos: nat, before: seq<Bytes>, tail: Bytes)
    requires pos <= |s.bytes| && tail == s.bytes[pos..] && Headless(parse, before, tail)
    ensures var next := ReadHeader(parse, s, pos, before);
            if next.Found? then pos + 512 == next.pos && next.pos + next.header.size > |s.bytes|
                                && !EndsCleanly(tail, s.broken)
            else next.End? <==> EndsCleanly(tail, s.broken)
  {
    SlicesOfTail(s, pos, tail);
    if |tail| >= 512 {
      assert tail[0..512] == tail[..512];
      if |tail| >= 1024 {
        ZerosInBlocks(tail);
      }
    }
  }

  /** Extensions with no file behind them, and what there is to read from their beginning on. */
  lemma HeadlessIsRead(parse: Parser, s: Stream, all: Outlook, pos: nat, preambles: seq<Preamble>, tail: Bytes)
    requires ReadsAll(parse, s, all) && PreamblesOk(parse, preambles) && pos <= |s.bytes|
    requires s.bytes[pos..] == WrittenPreambles(preambles) + tail && Headless(parse, Bodies(preambles), tail)
    ensures all.from(pos).entries == [] && (all.from(pos).clean <==> EndsCleanly(tail, s.broken))
  {
    var end := pos + |WrittenPreambles(preambles)|;
    assert s.bytes[pos..][..|WrittenPreambles(preambles)|] == s.bytes[pos..end];
    assert s.bytes[pos..][|WrittenPreambles(preambles)|..] == s.bytes[end..];
    PreamblesLeadOn(parse, s, pos, preambles, ReadHeader(parse, s, end, Bodies(preambles)));
    HeadlessIsJudged(parse, s, end, Bodies(preambles), tail);
    assert Here(pos);
  }

  /**
   Whatever else follows the files written, the reader gives just these; and it comes to a clean end only where there
   is nothing more, or nothing but zero blocks.
   */
  lemma OtherTailsAreRefused(
    parse: Parser, records: seq<Record>, preambles: seq<Preamble>, tail: Bytes, broken: bool)
    requires RecordsOk(parse, records) && PreamblesOk(parse, preambles) && Headless(parse, Bodies(preambles), tail)
    ensures var reading := Contents(parse, Stream(Written(records) + (WrittenPreambles(preambles) + tail), broken));
            reading.entries == EntriesOf(records) && (reading.clean <==> EndsCleanly(tail, broken))
  {
    var rest := WrittenPreambles(preambles) + tail;
    var s, n := Stream(Written(records) + rest, broken), |Written(records)|;
    var all := OutlookOf(parse, s);
    assert s.bytes[..n] == Written(records) && s.bytes[n..] == rest;
    WholeIsRead(parse, s, all, records);
    HeadlessIsRead(parse, s, all, n, preambles, tail);
    assert EntriesOf(records) + [] == EntriesOf(records);
  }

  /** Of the filling after the last body, some may be missing, if the stream does not break off there. */
  lemma LastFillMayBeCut(parse: Parser, records: seq<Record>, last: Record, cut: Bytes, broken: bool)
    requires RecordsOk(parse, records) && HeaderOk(parse, last) && Fills(last.body, last.fill) && cut < last.fill
    ensures var head := WrittenPreambles(last.preambles) + last.block + last.body;
            var reading := Contents(parse, Stream(Written(records) + (head + cut), broken));
            reading.entries == EntriesOf(records) + [EntryOf(last)] && (reading.clean <==> !broken)
  {
    var head := WrittenPreambles(last.preambles) + last.block + last.body;
    var s, n := Stream(Written(records) + (head + cut), broken), |Written(records)|;
    var all := OutlookOf(parse, s);
    assert s.bytes[..n] == Written(records) && s.bytes[n..n + |head|] == head;
    WholeIsRead(parse, s, all, records);
    CutFillIsRead(parse, s, all, n, last, cut);
  }

  lemma CutFillIsRead(parse: Parser, s: Stream, all: Outlook, pos: nat, r: Record, cut: Bytes)
    requires ReadsAll(parse, s, all) && HeaderOk(parse, r) && Fills(r.body, r.fill) && cut < r.fill
    requires StandsAt(s, pos, WrittenPreambles(r.preambles) + r.block + r.body)
    requires pos + |WrittenPreambles(r.preambles) + r.block + r.body| + |cut| == |s.bytes|
    ensures all.from(pos).entries == [EntryOf(r)] && (all.from(pos).clean <==> !s.broken)
  {
    var next := pos + |WrittenPreambles(r.preambles) + r.block|;
    StandsInParts(s, pos, WrittenPreambles(r.preambles) + r.block, r.body);
    HeadIsRead(parse, s, all, pos, r);
    CutFillIsJudged(parse, s, next, r, cut);
    assert Behind(next, Header(r.name, r.regular, |r.body|));
  }

  lemma CutFillIsJudged(parse: Parser, s: Stream, pos: nat, r: Record, cut: Bytes)
    requires Fills(r.body, r.fill) && cut < r.fill && StandsAt(s, pos, r.body) && pos + |r.body| + |cut| == |s.bytes|
    ensures AfterHeader(parse, s, pos, Header(r.name, r.regular, |r.body|)) ==
            Reading([EntryOf(r)], !s.broken, |s.bytes|)
  {
    FillIsPadding(r.body, r.fill);
    assert ReadAll(parse, s, pos, |r.body|, |r.fill|) == Reading([], !s.broken, |s.bytes|);
  }
}

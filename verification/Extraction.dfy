/** The two extraction loops, over a reader that uses up its budget in place. */
module Extraction {
  import opened Basics
  import opened Packages
  import opened Tar

  const MAX_ZIP_ENTRIES := 4096

  datatype ExtractError =
    | Cancelled | BadArchive | NotAtRoot | NotRegular | Duplicate | Empty | TooLarge | BadRead | WrongSize
    | OverLimit | Missing | TooManyEntries | Unsupported

  /** Where the extracted bytes go. */
  class Writer {
    var content: Bytes

    constructor ()
      ensures content == []
    {
      content := [];
    }

    method Write(data: Bytes)
      modifies this
      ensures content == old(content) + data
    {
      content := content + data;
    }
  }

  datatype Fill = Whole | Short | Broken

  /** A reader that lets at most limit + 1 bytes through; `left` is what remains of them. */
  class LimitedReader {
    const source: Stream
    const limit: nat
    var pos: nat
    var left: nat

    ghost predicate Valid()
      reads this
    {
      pos <= |View().bytes| && pos + left == limit + 1
    }

    ghost function View(): Stream {
      Visible(source, limit + 1)
    }

    constructor (source: Stream, limit: nat)
      ensures Valid() && this.source == source && this.limit == limit && pos == 0
    {
      this.source := source;
      this.limit := limit;
      pos := 0;
      left := limit + 1;
    }

    /** Reads k bytes, or as many as there are before the end, the budget or a fault. */
    method Take(k: nat) returns (data: Bytes, fill: Fill)
      requires Valid()
      modifies this
      ensures Valid() && old(pos) <= pos
      ensures data == View().bytes[old(pos)..pos]
      ensures if old(pos) + k <= |View().bytes| then fill == Whole && pos == old(pos) + k
              else pos == |View().bytes| && fill == if View().broken then Broken else Short
    {
      var available := if left < |source.bytes| - pos then left else |source.bytes| - pos;
      var m := if k < available then k else available;
      data := source.bytes[pos..pos + m];
      pos, left := pos + m, left - m;
      fill := if m == k then Whole else if left > 0 && source.broken then Broken else Short;
    }
  }

  /** The tar reader: what is left of the current entry, and its padding. */
  class TarReader {
    const parse: Parser
    const limited: LimitedReader
    var left: nat
    var pad: nat

    constructor (parse: Parser, limited: LimitedReader)
      ensures this.parse == parse && this.limited == limited && left == 0 && pad == 0
    {
      this.parse := parse;
      this.limited := limited;
      left, pad := 0, 0;
    }

    /** Takes `size` bytes and the padding after them. */
    method TakePadded(size: nat, padding: nat) returns (data: Bytes, r: Next)
      requires limited.Valid()
      modifies limited
      ensures limited.Valid() && r == Skip(limited.View(), old(limited.pos), size, padding) && limited.pos == r.pos
      ensures r.Found? ==> data == limited.View().bytes[old(limited.pos)..old(limited.pos) + size]
    {
      var taken;
      data, taken := limited.Take(size);
      if taken != Whole {
        return data, Bad(limited.pos);
      }
      var _, padded := limited.Take(padding);
      r := if padded == Whole then Found(limited.pos, BadHeader)
           else if padded == Broken then Bad(limited.pos) else End(limited.pos);
    }

    /** One block at the head of an entry; an End or Bad when there is none, else Found. */
    method TakeBlock() returns (block: Bytes, r: Next)
      requires limited.Valid()
      modifies limited
      ensures limited.Valid() && limited.pos == r.pos
      ensures var v, p := limited.View(), old(limited.pos);
              if p + BLOCK <= |v.bytes| then r == Found(p + BLOCK, BadHeader) && block == v.bytes[p..p + BLOCK]
              else r == if v.broken || p < |v.bytes| then Bad(|v.bytes|) else End(|v.bytes|)
    {
      var fill;
      block, fill := limited.Take(BLOCK);
      r := if fill == Whole then Found(limited.pos, BadHeader)
           else if fill == Broken || |block| > 0 then Bad(limited.pos) else End(limited.pos);
    }

    /** One header block: the outcome, or the body of an extension. */
    method ReadOne(extensions: seq<Bytes>) returns (r: Next, extension: Option<Bytes>)
      requires limited.Valid()
      modifies limited
      ensures limited.Valid() && old(limited.pos) <= limited.pos
      ensures var v := limited.View();
              if extension.None? then r == ReadHeader(parse, v, old(limited.pos), extensions) && limited.pos == r.pos
              else old(limited.pos) < limited.pos
                   && ReadHeader(parse, v, old(limited.pos), extensions)
                      == ReadHeader(parse, v, limited.pos, extensions + [extension.value])
    {
      ghost var view, start := limited.View(), limited.pos;
      extension := None;
      var block, first := TakeBlock();
      if !first.Found? {
        return first, None;
      }
      if IsZero(block) {
        var block2, second := TakeBlock();
        if !second.Found? {
          return second, None;
        }
        return if IsZero(block2) then End(limited.pos) else Bad(limited.pos), None;
      }
      var parsed := parse(extensions, block);
      if parsed.BadHeader? {
        return Bad(limited.pos), None;
      }
      if parsed.Header? {
        return Found(limited.pos, parsed), None;
      }
      ReadExtension(parse, view, start, extensions);
      var body;
      body, r := TakePadded(parsed.size, Padding(parsed.size));
      extension := if r.Found? then Some(body) else None;
    }

    /** Reads headers until one describes an entry. */
    method ReadHeaders() returns (r: Next)
      requires limited.Valid()
      modifies this, limited
      ensures limited.Valid() && limited.pos == r.pos
      ensures r == ReadHeader(parse, limited.View(), old(limited.pos), [])
      ensures r.Found? ==> left == r.header.size && pad == Padding(r.header.size)
    {
      var extension: Option<Bytes>;
      var extensions: seq<Bytes> := [];
      r, extension := ReadOne([]);
      while extension.Some?
        invariant limited.Valid()
        invariant ReadHeader(parse, limited.View(), old(limited.pos), []) ==
                  if extension.None? then r
                  else ReadHeader(parse, limited.View(), limited.pos, extensions + [extension.value])
        invariant extension.None? ==> limited.pos == r.pos
        decreases |limited.View().bytes| - limited.pos, extension.Some?
      {
        extensions := extensions + [extension.value];
        r, extension := ReadOne(extensions);
      }
      if r.Found? {
        left, pad := r.header.size, Padding(r.header.size);
      }
    }

    method Next() returns (r: Next)
      requires limited.Valid()
      modifies this, limited
      ensures limited.Valid() && limited.pos == r.pos
      ensures r == NextHeader(parse, limited.View(), old(limited.pos), old(left), old(pad))
      ensures r.Found? ==> left == r.header.size && pad == Padding(r.header.size)
    {
      var _, skipped := TakePadded(left, pad);
      r := skipped;
      if r.Found? {
        r := ReadHeaders();
      }
    }
  }

  /** What a successful extraction from a tar stream means: read to a clean end within the limit, one member. */
  predicate TarHolds(parse: Parser, s: Stream, limit: nat, member: string, body: Bytes) {
    var reading := Contents(parse, Visible(s, limit + 1));
    reading.clean && reading.consumed <= limit && UniqueMember(reading.entries, member) == Some(body)
  }

  /** Why a matching entry is refused, in the order the reasons are looked for. */
  function Objection(header: Parsed, member: string, found: bool): Option<ExtractError>
    requires header.Header?
  {
    if header.name != member then Some(NotAtRoot)
    else if !header.regular then Some(NotRegular)
    else if found then Some(Duplicate)
    else if header.size <= 0 then Some(Empty)
    else if header.size > MAX_BINARY_BYTES then Some(TooLarge)
    else None
  }

  /** How far an extraction has got: nothing selected yet, or one acceptable entry copied out. */
  predicate Progress(seen: seq<Entry>, member: string, found: bool, written: nat, before: Bytes, content: Bytes) {
    var selected := Select(seen, member);
    if found then |selected| == 1 && Acceptable(selected[0], member)
                  && content == before + selected[0].body && written == |selected[0].body|
    else selected == [] && content == before && written == 0
  }

  /** A refused entry spoils the archive, whatever follows. */
  lemma RefusedEntry(
    seen: seq<Entry>, e: Entry, after: seq<Entry>, member: string, found: bool, written: nat, before: Bytes,
    content: Bytes)
    requires Progress(seen, member, found, written, before, content)
    requires IsCalled(e, member) && (!Acceptable(e, member) || found)
    ensures UniqueMember(seen + [e] + after, member) == None
  {
    SelectAppend(seen + [e], after, member);
    SelectAppend(seen, [e], member);
  }

  lemma PassedEntry(
    seen: seq<Entry>, e: Entry, member: string, found: bool, written: nat, before: Bytes, content: Bytes)
    requires Progress(seen, member, found, written, before, content)
    ensures !IsCalled(e, member) ==> Progress(seen + [e], member, found, written, before, content)
    ensures IsCalled(e, member) && Acceptable(e, member) && !found ==>
              Progress(seen + [e], member, true, |e.body|, before, content + e.body)
  {
    SelectAppend(seen, [e], member);
  }

  /** What there is still to read at a place, with so much to be skipped. */
  type Rest = (nat, nat, nat) -> Reading

  predicate Left(pos: nat, left: nat, pad: nat) { true }

  /** `rest` tells what there is to read; the trigger keeps how out of sight where nothing is read. */
  ghost predicate Tells(rest: Rest, parse: Parser, s: Stream) {
    forall pos: nat, left: nat, pad: nat {:trigger Left(pos, left, pad)} ::
      pos <= |s.bytes| ==> rest(pos, left, pad) == ReadAll(parse, s, pos, left, pad)
  }

  lemma RestOf(parse: Parser, s: Stream) returns (rest: Rest)
    ensures Tells(rest, parse, s)
  {
    rest := (pos: nat, left: nat, pad: nat) =>
      if pos <= |s.bytes| then ReadAll(parse, s, pos, left, pad) else Reading([], false, |s.bytes|);
  }

  /** `seen` are the first entries of the whole reading; the rest is what can be read from here. */
  ghost predicate ReadSoFar(all: Reading, seen: seq<Entry>, rest: Rest, pos: nat, left: nat, pad: nat) {
    var more := rest(pos, left, pad);
    all == Reading(seen + more.entries, more.clean, more.consumed)
  }

  /** At the beginning all is still to be read. */
  lemma NothingRead(all: Reading, rest: Rest, parse: Parser, s: Stream)
    requires Tells(rest, parse, s) && all == Contents(parse, s)
    ensures ReadSoFar(all, [], rest, 0, 0, 0)
  {
    assert Left(0, 0, 0);
    assert [] + all.entries == all.entries;
  }

  /** What the next header makes of the reading. */
  lemma ReadOn(
    all: Reading, seen: seq<Entry>, rest: Rest, parse: Parser, s: Stream, pos: nat, left: nat, pad: nat, next: Next)
    requires Tells(rest, parse, s) && pos <= |s.bytes| && ReadSoFar(all, seen, rest, pos, left, pad)
    requires next == NextHeader(parse, s, pos, left, pad)
    ensures if !next.Found? then all == Reading(seen, next.End?, next.pos)
            else next.header.Header?
                 && ReadOnto(all, seen, rest, s, next.pos, next.header, next.header.size, Padding(next.header.size))
    ensures pos + left > |s.bytes| ==> !next.Found?
  {
    assert Left(pos, left, pad) && seen + [] == seen;
    if next.Found? {
      assert Left(next.pos, next.header.size, Padding(next.header.size));
      if next.pos + next.header.size <= |s.bytes| {
        var e := EntryAt(s, next.header, next.pos);
        var more := ReadAll(parse, s, next.pos, next.header.size, Padding(next.header.size));
        assert (seen + [e]) + more.entries == seen + ([e] + more.entries);
      }
    }
  }

  /** The reading has come to an entry's body: the entry is one more, or its body is not there and all is not clean. */
  ghost predicate ReadOnto(
    all: Reading, seen: seq<Entry>, rest: Rest, s: Stream, pos: nat, header: Parsed, left: nat, pad: nat)
    requires header.Header?
  {
    if pos + header.size > |s.bytes| then !all.clean && ReadSoFar(all, seen, rest, pos, left, pad)
    else ReadSoFar(all, seen + [EntryAt(s, header, pos)], rest, pos, left, pad)
  }

  /** Copying an entry out leaves the reader where skipping it would. */
  lemma CopiedIsSkipped(
    all: Reading, seen: seq<Entry>, rest: Rest, parse: Parser, s: Stream, pos: nat, size: nat, pad: nat)
    requires Tells(rest, parse, s) && pos + size <= |s.bytes| && ReadSoFar(all, seen, rest, pos, size, pad)
    ensures ReadSoFar(all, seen, rest, pos + size, 0, pad)
  {
    assert Left(pos, size, pad) && Left(pos + size, 0, pad);
  }

  /** A refused entry spoils the archive, whatever follows. */
  lemma RefusalIsRight(
    all: Reading, seen: seq<Entry>, e: Entry, rest: Rest, pos: nat, left: nat, pad: nat, member: string, found: bool,
    written: nat, before: Bytes, content: Bytes)
    requires ReadSoFar(all, seen + [e], rest, pos, left, pad)
    requires Progress(seen, member, found, written, before, content)
    requires IsCalled(e, member) && (!Acceptable(e, member) || found)
    ensures UniqueMember(all.entries, member) == None
  {
    RefusedEntry(seen, e, rest(pos, left, pad).entries, member, found, written, before, content);
  }

  /** Copies the bytes of the current entry to the destination. */
  method CopyMember(tar: TarReader, size: nat, destination: Writer) returns (copied: nat, fill: Fill)
    requires tar.limited.Valid()
    modifies tar`left, tar.limited, destination
    ensures tar.limited.Valid() && old(tar.limited.pos) <= tar.limited.pos
    ensures var v, p := tar.limited.View(), old(tar.limited.pos);
            if p + size <= |v.bytes| then
              && fill == Whole && copied == size && tar.left == 0 && tar.limited.pos == p + size
              && destination.content == old(destination.content) + v.bytes[p..p + size]
            else fill != Whole
  {
    var data;
    data, fill := tar.limited.Take(size);
    destination.Write(data);
    copied := |data|;
    tar.left := 0;
  }

  /** The entry a header announces; without its body when the stream ends before that. */
  ghost function EntryOrStub(s: Stream, header: Parsed, pos: nat): Entry
    requires header.Header? && pos <= |s.bytes|
  {
    if pos + header.size <= |s.bytes| then EntryAt(s, header, pos)
    else Entry(header.name, header.regular, header.size, [])
  }

  /** An entry of the member's name is copied out if nothing speaks against it. */
  method HandleMember(
    tar: TarReader, header: Parsed, member: string, found: bool, destination: Writer,
    ghost all: Reading, ghost rest: Rest, ghost seen: seq<Entry>, ghost before: Bytes, ghost written: nat)
    returns (copied: nat, failure: Option<ExtractError>, ghost seen': seq<Entry>)
    requires tar.limited.Valid() && header.Header? && PathBase(header.name) == member && tar.left == header.size
    requires Progress(seen, member, found, written, before, destination.content)
    requires Tells(rest, tar.parse, tar.limited.View())
    requires ReadOnto(all, seen, rest, tar.limited.View(), tar.limited.pos, header, tar.left, tar.pad)
    modifies tar`left, tar.limited, destination
    ensures tar.limited.Valid() && old(tar.limited.pos) <= tar.limited.pos
    ensures failure.None? ==>
      && |seen'| == |seen| + 1 && ReadSoFar(all, seen', rest, tar.limited.pos, tar.left, tar.pad)
      && Progress(seen', member, true, copied, before, destination.content)
    ensures failure.Some? ==> failure.value !in {OverLimit, Missing, Cancelled}
    ensures failure.Some? ==> !all.clean || UniqueMember(all.entries, member) == None
  {
    ghost var view, start := tar.limited.View(), tar.limited.pos;
    ghost var e := EntryOrStub(view, header, start);
    copied, failure, seen' := 0, Objection(header, member, found), seen + [e];
    if failure.Some? {
      if start + header.size <= |view.bytes| {
        RefusalIsRight(
          all, seen, e, rest, start, tar.left, tar.pad, member, found, written, before, destination.content);
      }
      return;
    }
    PassedEntry(seen, e, member, found, written, before, destination.content);
    var fill;
    copied, fill := CopyMember(tar, header.size, destination);
    if fill != Whole {
      return copied, Some(BadRead), seen';
    }
    CopiedIsSkipped(all, seen', rest, tar.parse, view, start, header.size, tar.pad);
  }

  /** The caller had given up by one of the polls 0 to `last`. */
  ghost predicate GaveUp(cancelled: nat -> bool, last: nat) {
    exists i: nat :: i <= last && cancelled(i)
  }

  /** The caller had not given up by any of the first n polls. */
  ghost predicate Patient(cancelled: nat -> bool, n: nat) {
    forall i: nat :: i < n ==> !cancelled(i)
  }

  /** An entry of another name is passed over. */
  method HandleEntry(
    tar: TarReader, header: Parsed, member: string, found: bool, written: nat, destination: Writer,
    ghost all: Reading, ghost rest: Rest, ghost seen: seq<Entry>, ghost before: Bytes)
    returns (written': nat, found': bool, failure: Option<ExtractError>, ghost seen': seq<Entry>)
    requires tar.limited.Valid() && header.Header? && tar.left == header.size
    requires Progress(seen, member, found, written, before, destination.content)
    requires Tells(rest, tar.parse, tar.limited.View())
    requires ReadOnto(all, seen, rest, tar.limited.View(), tar.limited.pos, header, tar.left, tar.pad)
    modifies tar`left, tar.limited, destination
    ensures tar.limited.Valid() && old(tar.limited.pos) <= tar.limited.pos
    ensures failure.None? ==>
      && ReadSoFar(all, seen', rest, tar.limited.pos, tar.left, tar.pad)
      && Progress(seen', member, found', written', before, destination.content)
      && (|seen'| == |seen| + 1
          || (|seen'| == |seen| && tar.limited.pos + tar.left > |tar.limited.View().bytes|))
    ensures failure.Some? ==> failure.value !in {OverLimit, Missing, Cancelled}
    ensures failure.Some? ==> !all.clean || UniqueMember(all.entries, member) == None
  {
    ghost var view, start := tar.limited.View(), tar.limited.pos;
    written', found', failure, seen' := written, found, None, seen;
    if PathBase(header.name) == member {
      written', failure, seen' :=
        HandleMember(tar, header, member, found, destination, all, rest, seen, before, written);
      found' := true;
    } else {
      PassedEntry(seen, EntryOrStub(view, header, start), member, found, written, before, destination.content);
      seen' := if start + header.size <= |view.bytes| then seen + [EntryAt(view, header, start)] else seen;
    }
  }

  /** The loop over the entries. `all` is what the budgeted stream holds in full. */
  method ScanTar(
    tar: TarReader, cancelled: nat -> bool, member: string, destination: Writer, ghost all: Reading)
    returns (written: nat, found: bool, failure: Option<ExtractError>)
    requires tar.limited.Valid() && tar.limited.pos == tar.left == tar.pad == 0
    requires all == Contents(tar.parse, tar.limited.View())
    modifies tar, tar.limited, destination
    ensures tar.limited.Valid()
    ensures failure.None? ==>
      && all.clean && tar.limited.pos == all.consumed
      && Progress(all.entries, member, found, written, old(destination.content), destination.content)
    ensures failure.Some? ==> failure.value !in {OverLimit, Missing}
    ensures failure.None? ==> Patient(cancelled, |all.entries| + 1)
    ensures failure == Some(Cancelled) ==> GaveUp(cancelled, |all.entries| + 1)
    ensures failure.Some? && failure != Some(Cancelled) ==> !all.clean || UniqueMember(all.entries, member) == None
  {
    ghost var view, before := tar.limited.View(), destination.content;
    ghost var seen: seq<Entry> := [];
    ghost var rest := RestOf(tar.parse, view);
    var i: nat := 0;
    written, found, failure := 0, false, None;
    NothingRead(all, rest, tar.parse, view);
    while true
      invariant tar.limited.Valid() && failure.None?
      invariant ReadSoFar(all, seen, rest, tar.limited.pos, tar.left, tar.pad)
      invariant Progress(seen, member, found, written, before, destination.content)
      invariant i == |seen| || (i == |seen| + 1 && tar.limited.pos + tar.left > |view.bytes|)
      invariant Patient(cancelled, i)
      decreases |view.bytes| - tar.limited.pos
    {
      if cancelled(i) {
        return written, found, Some(Cancelled);
      }
      i := i + 1;
      ghost var pos, left, pad := tar.limited.pos, tar.left, tar.pad;
      var next := tar.Next();
      ReadOn(all, seen, rest, tar.parse, view, pos, left, pad, next);
      if next.End? {
        return;
      }
      if next.Bad? {
        return written, found, Some(BadArchive);
      }
      written, found, failure, seen :=
        HandleEntry(tar, next.header, member, found, written, destination, all, rest, seen, before);
      if failure.Some? {
        return;
      }
    }
  }

  method ExtractTarGz(
    parse: Parser, cancelled: nat -> bool, archive: Stream, member: string, maxExpanded: nat, destination: Writer)
    returns (r: Result<nat, ExtractError>)
    modifies destination
    ensures r.Ok? ==> exists body :: TarHolds(parse, archive, maxExpanded, member, body)
                                     && destination.content == old(destination.content) + body && r.value == |body|
    ensures r.Ok? ==> Patient(cancelled, |Contents(parse, Visible(archive, maxExpanded + 1)).entries| + 1)
    ensures r.Err? && r.error != Cancelled ==> forall body :: !TarHolds(parse, archive, maxExpanded, member, body)
    ensures r == Err(Cancelled) ==>
      GaveUp(cancelled, |Contents(parse, Visible(archive, maxExpanded + 1)).entries| + 1)
    ensures r == Err(Missing) ==>
      Select(Contents(parse, Visible(archive, maxExpanded + 1)).entries, member) == []
    ensures r == Err(OverLimit) ==> Contents(parse, Visible(archive, maxExpanded + 1)).consumed > maxExpanded
  {
    var limited := new LimitedReader(archive, maxExpanded);
    var tar := new TarReader(parse, limited);
    ghost var all := Contents(parse, limited.View());
    var written, found, failure := ScanTar(tar, cancelled, member, destination, all);
    if failure.Some? {
      return Err(failure.value);
    }
    if limited.left <= 0 {
      return Err(OverLimit);
    }
    if !found {
      return Err(Missing);
    }
    assert TarHolds(parse, archive, maxExpanded, member, Select(all.entries, member)[0].body);
    return Ok(written);
  }

  /** The budget only ever refuses: what is accepted under it is what the whole stream holds, read within the limit. */
  lemma BudgetOnlyRefuses(parse: Parser, s: Stream, limit: nat, member: string, body: Bytes)
    ensures TarHolds(parse, s, limit, member, body) <==>
            var full := Contents(parse, s);
            full.clean && full.consumed <= limit && UniqueMember(full.entries, member) == Some(body)
    ensures TarHolds(parse, s, limit, member, body) ==> TarHolds(parse, s, |s.bytes|, member, body)
  {
    TruncationNeverHelps(parse, s, limit);
    TruncationNeverHelps(parse, s, |s.bytes|);
  }

  /*** ZIP ***/

  /** A file of the central directory: `fails` and `closes` say whether its data end in an error. */
  datatype ZipFile = ZipFile(
    name: string, regular: bool, declared: nat, opens: bool, data: Bytes, fails: bool, closes: bool)

  /** The entry a ZIP file offers when no call on it fails. */
  function AsEntry(f: ZipFile): Entry {
    Entry(f.name, f.regular, f.declared, f.data)
  }

  function AsEntries(files: seq<ZipFile>): seq<Entry> {
    seq(|files|, i requires 0 <= i < |files| => AsEntry(files[i]))
  }

  predicate FaultFree(f: ZipFile) { f.opens && !f.fails && f.closes }

  function ZipObjection(f: ZipFile, member: string, found: bool): Option<ExtractError> {
    if f.name != member then Some(NotAtRoot)
    else if !f.regular then Some(NotRegular)
    else if found then Some(Duplicate)
    else if f.declared == 0 then Some(Empty)
    else if f.declared > MAX_BINARY_BYTES then Some(TooLarge)
    else None
  }

  /** Copies through a reader limited to one byte more than any executable may have. */
  method CopyZipMember(f: ZipFile, destination: Writer) returns (copied: nat, failure: Option<ExtractError>)
    modifies destination
    ensures failure.None? ==> f.opens && f.closes && |f.data| == f.declared <= MAX_BINARY_BYTES && !f.fails
                              && copied == |f.data| && destination.content == old(destination.content) + f.data
    ensures failure.Some? ==> !FaultFree(f) || |f.data| != f.declared || f.declared > MAX_BINARY_BYTES
    ensures failure.Some? ==> failure.value == BadRead || failure.value == WrongSize
  {
    copied := 0;
    if !f.opens {
      return 0, Some(BadRead);
    }
    copied := if |f.data| < MAX_BINARY_BYTES + 1 then |f.data| else MAX_BINARY_BYTES + 1;
    destination.Write(f.data[..copied]);
    if f.fails && copied < MAX_BINARY_BYTES + 1 {
      return copied, Some(BadRead);
    }
    if !f.closes {
      return copied, Some(BadRead);
    }
    if copied != f.declared || copied > MAX_BINARY_BYTES {
      return copied, Some(WrongSize);
    }
    return copied, None;
  }

  /** The member the archive holds, if nothing fails on the way to it. */
  ghost predicate ZipHolds(files: seq<ZipFile>, member: string, body: Bytes) {
    && |files| <= 4096
    && UniqueMember(AsEntries(files), member) == Some(body)
    && forall i :: 0 <= i < |files| && PathBase(files[i].name) == member ==> FaultFree(files[i])
  }

  lemma AsEntriesSplit(files: seq<ZipFile>, i: nat)
    requires i < |files|
    ensures AsEntries(files) == AsEntries(files[..i]) + [AsEntry(files[i])] + AsEntries(files[i + 1..])
    ensures AsEntries(files[..i + 1]) == AsEntries(files[..i]) + [AsEntry(files[i])]
  {
  }

  /** A matching file that nothing speaks against is copied out. */
  method HandleZipMember(
    list: seq<ZipFile>, i: nat, member: string, found: bool, destination: Writer,
    ghost before: Bytes, ghost written: nat)
    returns (copied: nat, failure: Option<ExtractError>)
    requires i < |list| && PathBase(list[i].name) == member
    requires Progress(AsEntries(list[..i]), member, found, written, before, destination.content)
    modifies destination
    ensures failure.None? ==> FaultFree(list[i])
                              && Progress(AsEntries(list[..i + 1]), member, true, copied, before, destination.content)
    ensures failure.Some? ==> failure.value !in {Missing, Cancelled}
    ensures failure.Some? ==> !FaultFree(list[i]) || UniqueMember(AsEntries(list), member) == None
  {
    var f := list[i];
    ghost var seen, e, after := AsEntries(list[..i]), AsEntry(f), AsEntries(list[i + 1..]);
    AsEntriesSplit(list, i);
    PassedEntry(seen, e, member, found, written, before, destination.content);
    if !Acceptable(e, member) || found {
      RefusedEntry(seen, e, after, member, found, written, before, destination.content);
    }
    copied, failure := 0, ZipObjection(f, member, found);
    if failure.None? {
      copied, failure := CopyZipMember(f, destination);
    }
  }

  /** A file of another name changes nothing. */
  lemma PassedFile(
    list: seq<ZipFile>, i: nat, member: string, found: bool, written: nat, before: Bytes, content: Bytes)
    requires i < |list| && PathBase(list[i].name) != member
    requires Progress(AsEntries(list[..i]), member, found, written, before, content)
    ensures Progress(AsEntries(list[..i + 1]), member, found, written, before, content)
  {
    AsEntriesSplit(list, i);
    PassedEntry(AsEntries(list[..i]), AsEntry(list[i]), member, found, written, before, content);
  }

  /** The files are looked at one by one, unless they cannot be listed or are too many. */
  predicate Scanned(files: Option<seq<ZipFile>>) { files.Some? && |files.value| <= MAX_ZIP_ENTRIES }

  /** `files` is None when the directory cannot be read. */
  method ExtractZip(
    files: Option<seq<ZipFile>>, cancelled: nat -> bool, member: string, destination: Writer)
    returns (r: Result<nat, ExtractError>)
    modifies destination
    ensures r.Ok? ==> files.Some?
    ensures r.Ok? ==> exists body :: ZipHolds(files.value, member, body)
                                     && destination.content == old(destination.content) + body && r.value == |body|
    ensures r.Ok? ==> Patient(cancelled, |files.value| + 1)
    ensures r.Err? && r.error != Cancelled && files.Some? ==> forall body :: !ZipHolds(files.value, member, body)
    ensures r == Err(Cancelled) ==> GaveUp(cancelled, if Scanned(files) then |files.value| else 0)
    ensures r == Err(Missing) ==> files.Some? && Select(AsEntries(files.value), member) == []
  {
    if cancelled(0) {
      return Err(Cancelled);
    }
    if files.None? {
      return Err(BadArchive);
    }
    var list := files.value;
    if |list| > MAX_ZIP_ENTRIES {
      return Err(TooManyEntries);
    }
    ghost var before := destination.content;
    var written: nat, found := 0, false;
    for i := 0 to |list|
      invariant Progress(AsEntries(list[..i]), member, found, written, before, destination.content)
      invariant forall j :: 0 <= j < i && PathBase(list[j].name) == member ==> FaultFree(list[j])
      invariant Patient(cancelled, i + 1)
    {
      if cancelled(i + 1) {
        return Err(Cancelled);
      }
      if PathBase(list[i].name) == member {
        var copied, failure := HandleZipMember(list, i, member, found, destination, before, written);
        if failure.Some? {
          return Err(failure.value);
        }
        written, found := copied, true;
      } else {
        PassedFile(list, i, member, found, written, before, destination.content);
      }
    }
    assert list[..|list|] == list;
    if !found {
      return Err(Missing);
    }
    assert ZipHolds(list, member, Select(AsEntries(list), member)[0].body);
    return Ok(written);
  }

  /** Tar and ZIP meet one specification: of two fault-free archives of the same entries both give the same answer. */
  lemma TarAndZipAgree(parse: Parser, s: Stream, limit: nat, files: seq<ZipFile>, member: string, body: Bytes)
    requires var reading := Contents(parse, s);
             reading.clean && reading.consumed <= limit && multiset(reading.entries) == multiset(AsEntries(files))
    requires |files| <= MAX_ZIP_ENTRIES && forall i :: 0 <= i < |files| ==> FaultFree(files[i])
    ensures TarHolds(parse, s, limit, member, body) <==> ZipHolds(files, member, body)
  {
    BudgetOnlyRefuses(parse, s, limit, member, body);
    UniqueMemberOfPermutation(Contents(parse, s).entries, AsEntries(files), member);
  }
}

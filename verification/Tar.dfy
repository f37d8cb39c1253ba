/**
 Extraction from a tar stream under a byte budget. The reader is the one of Go's archive/tar: 512-byte blocks,
 extension headers that describe the header after them, two zero blocks at the end, and a clean end wherever the
 bytes run out at a block boundary or inside padding.
 */
module Tar {
  import opened Basics
  import opened Packages

  /** An expanded stream; `broken` says that reading past its bytes is an error and not the end. */
  datatype Stream = Stream(bytes: Bytes, broken: bool)

  /** A header block as parsed after the extension bodies before it. A file that is not regular still has a size. */
  datatype Parsed =
    | BadHeader
    | Extension(size: nat)
    | Header(name: string, regular: bool, size: nat)

  type Parser = (seq<Bytes>, Bytes) -> Parsed

  const BLOCK := 512

  /** What fills an entry of this size up to whole blocks. */
  function Padding(size: nat): nat { (BLOCK - size % BLOCK) % BLOCK }

  lemma PaddingFills(size: nat, pad: nat)
    ensures pad == Padding(size) <==> pad < 512 && (size + pad) % 512 == 0
  {
  }

  predicate IsZero(block: Bytes) { forall i :: 0 <= i < |block| ==> block[i] == 0 }

  /*** The reader as a function ***/

  datatype Next = End(pos: nat) | Bad(pos: nat) | Found(pos: nat, header: Parsed)

  /** Skipping `left` bytes of the entry before, and its padding. */
  function Skip(s: Stream, pos: nat, left: nat, pad: nat): (r: Next)
    requires pos <= |s.bytes|
    ensures r.Found? ==> r.pos == pos + left + pad <= |s.bytes|
    ensures pos <= r.pos <= |s.bytes|
    ensures !r.Found? ==> r.pos == |s.bytes|
  {
    if pos + left > |s.bytes| then Bad(|s.bytes|)
    else if pos + left + pad > |s.bytes| then if s.broken then Bad(|s.bytes|) else End(|s.bytes|)
    else Found(pos + left + pad, BadHeader)
  }

  /** The next header at pos; `pos` of the result is how far the stream was read. */
  function ReadHeader(parse: Parser, s: Stream, pos: nat, extensions: seq<Bytes>): (r: Next)
    requires pos <= |s.bytes|
    ensures pos <= r.pos <= |s.bytes|
    ensures r.Found? ==> r.header.Header?
    ensures r.pos >= pos + BLOCK || (r.pos == |s.bytes| && !r.Found?)
    decreases |s.bytes| - pos
  {
    if pos + BLOCK > |s.bytes| then
      if s.broken || pos < |s.bytes| then Bad(|s.bytes|) else End(|s.bytes|)
    else
      var block := s.bytes[pos..pos + BLOCK];
      if IsZero(block) then
        if pos + 2 * BLOCK > |s.bytes| then
          if s.broken || pos + BLOCK < |s.bytes| then Bad(|s.bytes|) else End(|s.bytes|)
        else if IsZero(s.bytes[pos + BLOCK..pos + 2 * BLOCK]) then End(pos + 2 * BLOCK)
        else Bad(pos + 2 * BLOCK)
      else
        match parse(extensions, block)
        case BadHeader => Bad(pos + BLOCK)
        case Header(_, _, _) => Found(pos + BLOCK, parse(extensions, block))
        case Extension(n) =>
          var body := pos + BLOCK;
          var after := Skip(s, body, n, Padding(n));
          if after.Found? then ReadHeader(parse, s, after.pos, extensions + [s.bytes[body..body + n]]) else after
  }

  /** What reading the stream to its end gives: the whole entries, whether the end was clean, and how far it got. */
  datatype Reading = Reading(entries: seq<Entry>, clean: bool, consumed: nat)

  function EntryAt(s: Stream, header: Parsed, pos: nat): Entry
    requires header.Header? && pos + header.size <= |s.bytes|
  {
    Entry(header.name, header.regular, header.size, s.bytes[pos..pos + header.size])
  }

  /** tar.Reader.Next: skip, then read a header. */
  function NextHeader(parse: Parser, s: Stream, pos: nat, left: nat, pad: nat): (r: Next)
    requires pos <= |s.bytes|
    ensures pos <= r.pos <= |s.bytes|
    ensures r.Found? ==> r.header.Header?
    ensures r.pos >= pos + left + pad + BLOCK || (r.pos == |s.bytes| && !r.Found?)
  {
    var start := Skip(s, pos, left, pad);
    if start.Found? then ReadHeader(parse, s, start.pos, []) else start
  }

  function ReadAll(parse: Parser, s: Stream, pos: nat, left: nat, pad: nat): (r: Reading)
    requires pos <= |s.bytes|
    ensures pos <= r.consumed <= |s.bytes|
    decreases |s.bytes| - pos
  {
    match NextHeader(parse, s, pos, left, pad)
    case End(p) => Reading([], true, p)
    case Bad(p) => Reading([], false, p)
    case Found(p, header) =>
      if p + header.size > |s.bytes| then Reading([], false, |s.bytes|)
      else
        var rest := ReadAll(parse, s, p, header.size, Padding(header.size));
        Reading([EntryAt(s, header, p)] + rest.entries, rest.clean, rest.consumed)
  }

  function Contents(parse: Parser, s: Stream): Reading {
    ReadAll(parse, s, 0, 0, 0)
  }

  /** The part of a stream that a reader limited to n bytes lets through; its end always looks clean. */
  function Visible(s: Stream, n: nat): Stream {
    if |s.bytes| >= n then Stream(s.bytes[..n], false) else s
  }

  /*** Truncation never helps ***/

  /** v is s cut off, with an end that looks clean. */
  predicate CutOff(v: Stream, s: Stream) {
    !v.broken && |v.bytes| <= |s.bytes| && forall i :: 0 <= i < |v.bytes| ==> v.bytes[i] == s.bytes[i]
  }

  lemma SameSlice(v: Stream, s: Stream, lo: nat, hi: nat)
    requires CutOff(v, s) && lo <= hi <= |v.bytes|
    ensures v.bytes[lo..hi] == s.bytes[lo..hi]
  {
  }

  predicate ExtensionAt(parse: Parser, s: Stream, pos: nat, extensions: seq<Bytes>) {
    && pos + BLOCK <= |s.bytes|
    && !IsZero(s.bytes[pos..pos + BLOCK])
    && parse(extensions, s.bytes[pos..pos + BLOCK]).Extension?
  }

  /** An extension header is read over: its body is kept for the header after it. */
  lemma {:induction false} ReadExtension(parse: Parser, s: Stream, pos: nat, extensions: seq<Bytes>)
    requires ExtensionAt(parse, s, pos, extensions)
    ensures ReadHeader(parse, s, pos, extensions) ==
            AfterExtension(parse, s, pos + BLOCK, parse(extensions, s.bytes[pos..pos + BLOCK]).size, extensions)
  {
  }

  /** Where the cut-off stream did not reach its end, or the full one not that far, both say the same. */
  ghost predicate Agree(cut: Next, full: Next, end: nat) {
    cut.pos < end || full.pos < end ==> cut == full
  }

  /** The header after an extension, or the end met on the way to it. */
  function AfterExtension(parse: Parser, s: Stream, pos: nat, size: nat, extensions: seq<Bytes>): (r: Next)
    requires pos <= |s.bytes|
  {
    var after := Skip(s, pos, size, Padding(size));
    if after.Found? then ReadHeader(parse, s, after.pos, extensions + [s.bytes[pos..pos + size]]) else after
  }

  lemma AfterWholeExtension(parse: Parser, s: Stream, pos: nat, body: Bytes, extensions: seq<Bytes>)
    requires pos + |body| + Padding(|body|) <= |s.bytes| && s.bytes[pos..pos + |body|] == body
    ensures AfterExtension(parse, s, pos, |body|, extensions) ==
            ReadHeader(parse, s, pos + |body| + Padding(|body|), extensions + [body])
  {
  }

  lemma AfterCutExtension(parse: Parser, s: Stream, pos: nat, size: nat, extensions: seq<Bytes>)
    requires pos <= |s.bytes| < pos + size + Padding(size)
    ensures AfterExtension(parse, s, pos, size, extensions).pos == |s.bytes|
  {
  }

  lemma AfterExtensionStays(parse: Parser, s: Stream, pos: nat, size: nat, extensions: seq<Bytes>)
    requires pos <= |s.bytes|
    ensures AfterExtension(parse, s, pos, size, extensions).pos >=
            if pos + size + Padding(size) <= |s.bytes| then pos + size + Padding(size) else |s.bytes|
  {
  }

  lemma WholeExtensionsAgree(parse: Parser, v: Stream, s: Stream, pos: nat, body: Bytes, extensions: seq<Bytes>)
    requires |v.bytes| <= |s.bytes| && pos + |body| + Padding(|body|) <= |v.bytes|
    requires v.bytes[pos..pos + |body|] == body && s.bytes[pos..pos + |body|] == body
    requires var end := pos + |body| + Padding(|body|);
             Agree(ReadHeader(parse, v, end, extensions + [body]), ReadHeader(parse, s, end, extensions + [body]),
                   |v.bytes|)
    ensures Agree(AfterExtension(parse, v, pos, |body|, extensions), AfterExtension(parse, s, pos, |body|, extensions),
                  |v.bytes|)
  {
    AfterWholeExtension(parse, v, pos, body, extensions);
    AfterWholeExtension(parse, s, pos, body, extensions);
  }

  lemma CutExtensionsAgree(parse: Parser, v: Stream, s: Stream, pos: nat, size: nat, extensions: seq<Bytes>)
    requires pos <= |v.bytes| <= |s.bytes| && |v.bytes| < pos + size + Padding(size)
    ensures Agree(AfterExtension(parse, v, pos, size, extensions), AfterExtension(parse, s, pos, size, extensions),
                  |v.bytes|)
  {
    AfterCutExtension(parse, v, pos, size, extensions);
    AfterExtensionStays(parse, s, pos, size, extensions);
  }

  lemma {:induction false} AfterExtensionsAgree(
    parse: Parser, v: Stream, s: Stream, pos: nat, size: nat, extensions: seq<Bytes>)
    requires CutOff(v, s) && pos <= |v.bytes|
    ensures Agree(AfterExtension(parse, v, pos, size, extensions), AfterExtension(parse, s, pos, size, extensions),
                  |v.bytes|)
    decreases |v.bytes| - pos, 1
  {
    if pos + size + Padding(size) <= |v.bytes| {
      var body := s.bytes[pos..pos + size];
      SameSlice(v, s, pos, pos + size);
      HeadersAgree(parse, v, s, pos + size + Padding(size), extensions + [body]);
      WholeExtensionsAgree(parse, v, s, pos, body, extensions);
    } else {
      CutExtensionsAgree(parse, v, s, pos, size, extensions);
    }
  }

  lemma {:induction false} HeadersAgree(parse: Parser, v: Stream, s: Stream, pos: nat, extensions: seq<Bytes>)
    requires CutOff(v, s) && pos <= |v.bytes|
    ensures Agree(ReadHeader(parse, v, pos, extensions), ReadHeader(parse, s, pos, extensions), |v.bytes|)
    decreases |v.bytes| - pos, 0
  {
    if pos + BLOCK <= |v.bytes| {
      SameSlice(v, s, pos, pos + BLOCK);
      var block := s.bytes[pos..pos + BLOCK];
      if IsZero(block) {
        if pos + 2 * BLOCK <= |v.bytes| {
          SameSlice(v, s, pos + BLOCK, pos + 2 * BLOCK);
        }
      } else if parse(extensions, block).Extension? {
        ReadExtension(parse, s, pos, extensions);
        ReadExtension(parse, v, pos, extensions);
        AfterExtensionsAgree(parse, v, s, pos + BLOCK, parse(extensions, block).size, extensions);
      }
    }
  }

  lemma NextHeadersAgree(parse: Parser, v: Stream, s: Stream, pos: nat, left: nat, pad: nat)
    requires CutOff(v, s) && pos <= |v.bytes|
    ensures Agree(NextHeader(parse, v, pos, left, pad), NextHeader(parse, s, pos, left, pad), |v.bytes|)
  {
    if pos + left + pad <= |v.bytes| {
      HeadersAgree(parse, v, s, pos + left + pad, []);
    }
  }

  /** The reading from a found header on. */
  function AfterHeader(parse: Parser, s: Stream, pos: nat, header: Parsed): Reading
    requires pos <= |s.bytes| && header.Header?
  {
    if pos + header.size > |s.bytes| then Reading([], false, |s.bytes|)
    else
      var rest := ReadAll(parse, s, pos, header.size, Padding(header.size));
      Reading([EntryAt(s, header, pos)] + rest.entries, rest.clean, rest.consumed)
  }

  lemma ReadAllFound(parse: Parser, s: Stream, pos: nat, left: nat, pad: nat)
    requires pos <= |s.bytes| && NextHeader(parse, s, pos, left, pad).Found?
    ensures var next := NextHeader(parse, s, pos, left, pad);
            ReadAll(parse, s, pos, left, pad) == AfterHeader(parse, s, next.pos, next.header)
  {
  }

  ghost predicate SameReading(cut: Reading, full: Reading, end: nat) {
    cut.consumed < end || full.consumed < end ==> cut == full
  }

  /** A reading that stays short of the cut is the reading of the full stream. */
  lemma {:induction false} ReadingsAgree(parse: Parser, v: Stream, s: Stream, pos: nat, left: nat, pad: nat)
    requires CutOff(v, s) && pos <= |v.bytes|
    ensures SameReading(ReadAll(parse, v, pos, left, pad), ReadAll(parse, s, pos, left, pad), |v.bytes|)
    decreases |v.bytes| - pos, 1
  {
    NextHeadersAgree(parse, v, s, pos, left, pad);
    var cut := NextHeader(parse, v, pos, left, pad);
    if cut == NextHeader(parse, s, pos, left, pad) && cut.Found? {
      ReadAllFound(parse, v, pos, left, pad);
      ReadAllFound(parse, s, pos, left, pad);
      AfterHeadersAgree(parse, v, s, cut.pos, cut.header);
    }
  }

  lemma {:induction false} AfterHeadersAgree(parse: Parser, v: Stream, s: Stream, pos: nat, header: Parsed)
    requires CutOff(v, s) && pos <= |v.bytes| && header.Header?
    ensures SameReading(AfterHeader(parse, v, pos, header), AfterHeader(parse, s, pos, header), |v.bytes|)
    decreases |v.bytes| - pos, 2
  {
    if pos + header.size <= |v.bytes| {
      SameSlice(v, s, pos, pos + header.size);
      ReadingsAgree(parse, v, s, pos, header.size, Padding(header.size));
    }
  }

  /** Reading under a budget, and never using it up, is reading without one. */
  lemma TruncationNeverHelps(parse: Parser, s: Stream, limit: nat)
    ensures var cut, full := Contents(parse, Visible(s, limit + 1)), Contents(parse, s);
            cut.consumed <= limit || full.consumed <= limit ==> cut == full
  {
    if |s.bytes| >= limit + 1 {
      ReadingsAgree(parse, Visible(s, limit + 1), s, 0, 0, 0);
    }
  }
}

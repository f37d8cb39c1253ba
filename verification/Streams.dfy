/** Reading a stream of bytes in pieces of any size: counted, limited, and hashed on the way. */
module Streams {
  import opened Basics

  datatype Status = More | Eof | Broken

  /** The size of the buffer that io.Copy reads into. */
  const BUFFER := 32768

  /** A body on its way. When it is `faulty`, reading breaks at some point, and the end is never seen. */
  class Source {
    const whole: Bytes
    const faulty: bool
    var pos: nat

    ghost predicate Valid()
      reads this
    {
      pos <= |whole|
    }

    constructor (whole: Bytes, faulty: bool)
      ensures Valid() && this.whole == whole && this.faulty == faulty && pos == 0
    {
      this.whole, this.faulty, pos := whole, faulty, 0;
    }

    /** At least one byte, at most `max`, unless the stream ends; how many is up to the network. */
    method Read(max: nat) returns (data: Bytes, status: Status)
      requires Valid() && max > 0
      modifies this
      ensures Valid() && old(pos) <= pos && data == whole[old(pos)..pos] && |data| <= max
      ensures status == More ==> |data| > 0
      ensures status == Eof ==> pos == |whole| && !faulty
      ensures status == Broken ==> faulty
    {
      var n: int := *;
      n := if n < 1 then 1 else if n > max then max else n;
      n := if n > |whole| - pos then |whole| - pos else n;
      var breaks := *;
      data := whole[pos..pos + n];
      pos := pos + n;
      status := if n > 0 then More else if faulty then Broken else Eof;
      if faulty && breaks {
        status := Broken;
      }
    }
  }

  /** Strictly increasing counts that end at n: what a progress display is told. */
  predicate Rising(reports: seq<nat>, n: nat) {
    && (forall i, j :: 0 <= i < j < |reports| ==> reports[i] < reports[j])
    && (if reports == [] then n == 0 else reports[0] > 0 && reports[|reports| - 1] == n)
  }

  /** Tells, after each read, how many bytes have come so far. */
  class CountingReader {
    const reader: Source
    var received: nat
    var reports: seq<nat>

    ghost predicate Valid()
      reads this, reader
    {
      reader.Valid() && received == reader.pos && Rising(reports, received)
    }

    constructor (reader: Source)
      requires reader.Valid() && reader.pos == 0
      ensures Valid() && this.reader == reader && received == 0
    {
      this.reader, received, reports := reader, 0, [];
    }

    method Read(max: nat) returns (data: Bytes, status: Status)
      requires Valid() && max > 0
      modifies this, reader
      ensures Valid() && old(reader.pos) <= reader.pos && data == reader.whole[old(reader.pos)..reader.pos]
      ensures |data| <= max && old(reports) <= reports
      ensures status == More ==> |data| > 0
      ensures status == Eof ==> reader.pos == |reader.whole| && !reader.faulty
      ensures status == Broken ==> reader.faulty
    {
      data, status := reader.Read(max);
      if |data| > 0 {
        received := received + |data|;
        reports := reports + [received];
      }
    }
  }

  /** Lets `left` more bytes through and then claims that the stream has ended. */
  class LimitReader {
    const inner: CountingReader
    var left: nat

    ghost predicate Valid()
      reads this, inner, inner.reader
    {
      inner.Valid()
    }

    constructor (inner: CountingReader, n: nat)
      requires inner.Valid()
      ensures Valid() && this.inner == inner && left == n
    {
      this.inner, left := inner, n;
    }

    method Read(max: nat) returns (data: Bytes, status: Status)
      requires Valid() && max > 0
      modifies this, inner, inner.reader
      ensures Valid() && var r := inner.reader; old(r.pos) <= r.pos && data == r.whole[old(r.pos)..r.pos]
      ensures |data| <= old(left) && left == old(left) - |data|
      ensures status == More ==> |data| > 0
      ensures status == Eof ==> old(left) == 0 || (inner.reader.pos == |inner.reader.whole| && !inner.reader.faulty)
      ensures status == Broken ==> inner.reader.faulty
    {
      if left == 0 {
        return [], Eof;
      }
      data, status := inner.Read(if max < left then max else left);
      left := left - |data|;
    }
  }

  class Hasher {
    var input: Bytes

    constructor ()
      ensures input == []
    {
      input := [];
    }

    method Write(data: Bytes)
      modifies this
      ensures input == old(input) + data
    {
      input := input + data;
    }
  }

  /** Hashes a whole stream, or fails: exactly when it breaks or is longer than the limit. */
  method HashBounded(hash: Bytes -> Bytes, body: Bytes, faulty: bool, limit: nat) returns (sum: Option<Bytes>)
    ensures sum.Some? ==> !faulty && |body| <= limit && sum.value == hash(body)
    ensures sum.None? ==> faulty || |body| > limit
  {
    var source := new Source(body, faulty);
    var counter := new CountingReader(source);
    var limited := new LimitReader(counter, limit + 1);
    var hasher := new Hasher();
    var status := More;
    while status == More
      invariant limited.Valid() && limited.inner == counter && counter.reader == source && source.whole == body
      invariant source.faulty == faulty && limited.left == limit + 1 - source.pos && hasher.input == body[..source.pos]
      invariant status == Broken ==> faulty
      invariant status == Eof ==> limited.left == 0 || (source.pos == |body| && !faulty)
      decreases limited.left, status == More
    {
      var data;
      data, status := limited.Read(BUFFER);
      hasher.Write(data);
    }
    if status == Broken || source.pos > limit {
      return None;
    }
    assert body[..source.pos] == body;
    return Some(hash(hasher.input));
  }
}

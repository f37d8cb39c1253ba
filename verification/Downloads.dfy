/** Fetching a release archive into its file. */
module Downloads {
  import opened Basics
  import opened Machine
  import opened Streams
  import opened Worlds

  /** What the server answers. `faulty` bodies break off at some point; a length below 0 is unknown. */
  datatype Response = Response(status: int, contentLength: int, body: Bytes, faulty: bool)

  /** A response that can be downloaded: successful, announced and sent within the limit, and sent to its end. */
  predicate Complete(response: Response, limit: nat) {
    200 <= response.status < 300 && response.contentLength <= limit && |response.body| <= limit && !response.faulty
  }

  /** The archive file holds exactly these bytes, and nothing else has changed. */
  ghost predicate Downloaded(d: Disk, d': Disk, file: Name, bytes: Bytes)
    requires d.Has(file)
  {
    d' == d.Put(file, d.At(file).(content := bytes, synced := false))
  }

  ghost predicate Fetching(w: World, p: nat, file: Name)
    reads w
  {
    w.Holding(p) && w.Me(p).pc.Downloading? && w.Me(p).archive == Some(file) && w.disk.Has(file)
    && !w.disk.At(file).synced
  }

  /** One piece goes both to the file and into the hash. */
  method WriteBoth(w: World, p: nat, file: Name, hasher: Hasher, data: Bytes) returns (ok: bool)
    requires Fetching(w, p, file) && w.disk.At(file).content == hasher.input
    modifies w, hasher
    ensures w.Holding(p) && Continues(old(w.story), w.story)
    ensures ok ==> Fetching(w, p, file) && w.Me(p) == old(w.Me(p)) && hasher.input == old(hasher.input) + data
                   && Downloaded(old(w.disk), w.disk, file, hasher.input)
    ensures !ok ==> w.Me(p) == Stumble(old(w.Me(p)))
    ensures w.mishaps >= old(w.mishaps) && (!ok ==> w.mishaps > old(w.mishaps))
  {
    ok := w.Write(p, file, data);
    if ok {
      hasher.Write(data);
    }
  }

  lemma DownloadedMore(d: Disk, d': Disk, d'': Disk, file: Name, some: Bytes, more: Bytes)
    requires d.Has(file) && Downloaded(d, d', file, some) && d'.Has(file) && Downloaded(d', d'', file, more)
    ensures Downloaded(d, d'', file, more)
  {
  }

  lemma NothingDownloaded(d: Disk, file: Name)
    requires d.Has(file) && d.At(file).content == [] && !d.At(file).synced
    ensures Downloaded(d, d, file, [])
  {
  }

  /** A download under way: what has been read has been written and hashed. */
  ghost predicate Flowing(w: World, p: nat, file: Name, limited: LimitReader, hasher: Hasher, limit: nat)
    reads w, hasher, limited, limited.inner, limited.inner.reader
  {
    var source := limited.inner.reader;
    && limited.Valid() && Fetching(w, p, file) && limited.left == limit + 1 - source.pos
    && hasher.input == source.whole[..source.pos] == w.disk.At(file).content
  }

  /** Copies one piece of the body. */
  method CopyPiece(w: World, p: nat, file: Name, limited: LimitReader, hasher: Hasher, ghost limit: nat)
    returns (ok: bool, status: Status)
    requires Flowing(w, p, file, limited, hasher, limit)
    modifies w, hasher, limited, limited.inner, limited.inner.reader
    ensures w.Holding(p) && Continues(old(w.story), w.story) && limited.inner.Valid()
    ensures ok ==> Flowing(w, p, file, limited, hasher, limit) && w.Me(p) == old(w.Me(p))
                   && Downloaded(old(w.disk), w.disk, file, hasher.input)
    ensures limited.left <= old(limited.left) && (status == More ==> limited.left < old(limited.left))
    ensures status == Eof ==> var source := limited.inner.reader;
              old(limited.left) == 0 || (source.pos == |source.whole| && !source.faulty)
    ensures status == Broken ==> limited.inner.reader.faulty
    ensures !ok ==> w.Me(p) == Stumble(old(w.Me(p)))
    ensures w.mishaps >= old(w.mishaps) && (!ok ==> w.mishaps > old(w.mishaps))
  {
    var data;
    data, status := limited.Read(BUFFER);
    ok := WriteBoth(w, p, file, hasher, data);
  }

  /** Copies all pieces. */
  method CopyAll(w: World, p: nat, file: Name, limited: LimitReader, hasher: Hasher, ghost limit: nat)
    returns (ok: bool, status: Status)
    requires Flowing(w, p, file, limited, hasher, limit) && w.disk.At(file).content == []
    modifies w, hasher, limited, limited.inner, limited.inner.reader
    ensures w.Holding(p) && Continues(old(w.story), w.story) && limited.inner.Valid()
    ensures ok ==> Flowing(w, p, file, limited, hasher, limit) && w.Me(p) == old(w.Me(p)) && status != More
                   && Downloaded(old(w.disk), w.disk, file, hasher.input)
    ensures status == Eof ==> var source := limited.inner.reader;
              limited.left == 0 || (source.pos == |source.whole| && !source.faulty)
    ensures status == Broken ==> limited.inner.reader.faulty
    ensures !ok ==> w.Me(p) == Stumble(old(w.Me(p)))
    ensures w.mishaps >= old(w.mishaps) && (!ok ==> w.mishaps > old(w.mishaps))
  {
    ok, status := true, More;
    NothingDownloaded(w.disk, file);
    while status == More
      invariant Flowing(w, p, file, limited, hasher, limit) && w.Me(p) == old(w.Me(p))
      invariant w.mishaps >= old(w.mishaps) && Continues(old(w.story), w.story)
      invariant Downloaded(old(w.disk), w.disk, file, hasher.input)
      invariant status == Eof ==> var source := limited.inner.reader;
                  limited.left == 0 || (source.pos == |source.whole| && !source.faulty)
      invariant status == Broken ==> limited.inner.reader.faulty
      decreases limited.left, status == More
    {
      ghost var before, some := w.disk, hasher.input;
      ok, status := CopyPiece(w, p, file, limited, hasher, limit);
      if !ok {
        return;
      }
      DownloadedMore(old(w.disk), before, w.disk, file, some, hasher.input);
    }
  }

  /** A source behind a counter behind a limit, and a hasher. */
  method Connect(body: Bytes, faulty: bool, limit: nat) returns (limited: LimitReader, hasher: Hasher)
    ensures fresh(limited) && fresh(limited.inner) && fresh(limited.inner.reader) && fresh(hasher)
    ensures limited.Valid() && limited.left == limit + 1 && hasher.input == []
    ensures limited.inner.reader.whole == body && limited.inner.reader.faulty == faulty && limited.inner.reader.pos == 0
  {
    var source := new Source(body, faulty);
    var counter := new CountingReader(source);
    limited := new LimitReader(counter, limit + 1);
    hasher := new Hasher();
  }

  /** Copies a whole body, unless it is faulty or too long. */
  method CopyBody(w: World, p: nat, body: Bytes, faulty: bool, limit: nat, file: Name)
    returns (whole: bool, input: Bytes, progress: seq<nat>)
    requires Fetching(w, p, file) && w.disk.At(file).content == []
    modifies w
    ensures w.Holding(p) && Continues(old(w.story), w.story) && w.mishaps >= old(w.mishaps)
    ensures whole ==>
      && Fetching(w, p, file) && w.Me(p) == old(w.Me(p)) && Downloaded(old(w.disk), w.disk, file, body)
      && input == body && |body| <= limit && !faulty && Rising(progress, |body|)
    ensures !whole ==> w.Me(p) == Stumble(old(w.Me(p)))
    ensures !whole ==> w.mishaps > old(w.mishaps) || faulty || |body| > limit
  {
    var limited, hasher := Connect(body, faulty, limit);
    var source := limited.inner.reader;
    assert body[..0] == [];
    var ok, status := CopyAll(w, p, file, limited, hasher, limit);
    progress, input := limited.inner.reports, hasher.input;
    if !ok {
      return false, input, progress;
    }
    if status == Broken || source.pos > limit {
      w.Refuse(p);
      return false, input, progress;
    }
    assert body[..source.pos] == body;
    whole := true;
  }

  /**
   Streams the body into the archive file, hashing what is written. Success means: the file holds the whole body, the
   digest is the hash of the file, and progress was reported as rising counts that end at its length.
   */
  method DownloadToFile(w: World, p: nat, response: Response, limit: nat, file: Name)
    returns (digest: Option<Bytes>, progress: seq<nat>)
    requires Fetching(w, p, file) && w.disk.At(file).content == []
    modifies w
    ensures w.Holding(p) && Continues(old(w.story), w.story)
    ensures digest.Some? ==>
      && Fetching(w, p, file) && w.Me(p) == old(w.Me(p)) && Downloaded(old(w.disk), w.disk, file, response.body)
      && digest.value == w.c.hash(response.body) && |response.body| <= limit && !response.faulty
      && 200 <= response.status < 300 && Rising(progress, |response.body|)
    ensures digest.None? ==> w.Me(p) == Stumble(old(w.Me(p)))
    ensures w.mishaps >= old(w.mishaps) && (digest.None? ==> w.mishaps > old(w.mishaps) || !Complete(response, limit))
    ensures digest.None? && w.mishaps == old(w.mishaps) ==>
      || response.status < 200 || response.status > 299 || response.contentLength > limit
      || |response.body| > limit || response.faulty
  {
    progress := [];
    if !(200 <= response.status < 300) || response.contentLength > limit {
      w.Refuse(p);
      return None, progress;
    }
    var whole, input;
    whole, input, progress := CopyBody(w, p, response.body, response.faulty, limit, file);
    return if whole then Some(w.c.hash(input)) else None, progress;
  }
}

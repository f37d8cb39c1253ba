/** Every step keeps the target whole and on stable storage, whatever the power does next. */
module Durability {
  import opened Basics
  import opened Machine
  import opened Invariant
  import opened HolderSteps

  /** On Unix: Target keeps its inode, and nothing Target may name after a power failure loses a byte. */
  ghost predicate Gentle(c: Config, d: Disk, d': Disk) {
    c.platform == Unix && Target in d.dir ==>
      && Target in d'.dir && d'.dir[Target] == d.dir[Target]
      && (d'.maybe == d.maybe || d'.maybe == {d.dir[Target]})
      && |d.inodes| <= |d'.inodes|
      && forall i :: 0 <= i < |d.inodes| && i in d.maybe ==>
           d'.inodes[i].synced == d.inodes[i].synced && d'.inodes[i].content == d.inodes[i].content
  }

  lemma GentleKeepsDurable(c: Config, d: Disk, d': Disk, h: seq<Event>)
    requires d.Sound() && Durable(c, d, h) && Gentle(c, d, d')
    ensures Durable(c, d', h)
  {
  }

  lemma PrestageIsGentle(c: Config, d: Disk, q: Proc, input: Input, last: Bytes, d': Disk, q': Proc)
    requires Held(c, d, q, last) && Prestage(c, d, q, input) == Some((d', q'))
    ensures Gentle(c, d, d')
  {
  }

  lemma ReplaceIsGentle(c: Config, d: Disk, q: Proc, input: Input, last: Bytes, d': Disk, q': Proc)
    requires Held(c, d, q, last) && Replace(c, d, q, input) == Some((d', q')) && !q.pc.Renaming?
    ensures Gentle(c, d, d')
  {
  }

  lemma TidyIsGentle(c: Config, d: Disk, q: Proc, input: Input, last: Bytes, d': Disk, q': Proc)
    requires Held(c, d, q, last) && Tidy(d, q, input) == Some((d', q'))
    ensures Gentle(c, d, d')
  {
  }

  lemma SweepIsGentle(c: Config, d: Disk, q: Proc, n: Name, how: Sweep, last: Bytes, d': Disk, q': Proc)
    requires Held(c, d, q, last) && Sweeping(d, q, n, how) == Some((d', q'))
    ensures Gentle(c, d, d')
  {
  }

  lemma ReceiveIsGentle(c: Config, d: Disk, q: Proc, bytes: Bytes, last: Bytes, d': Disk)
    requires Held(c, d, q, last) && Receiving(d, q, bytes) == Some(d')
    ensures Gentle(c, d, d')
  {
  }

  lemma AdvanceIsGentle(c: Config, d: Disk, q: Proc, input: Input, last: Bytes, d': Disk, q': Proc)
    requires Held(c, d, q, last) && Advance(c, d, q, input) == Some((d', q')) && !q.pc.Renaming?
    ensures Gentle(c, d, d')
  {
    if Rank(q.pc) <= 11 {
    } else if Rank(q.pc) <= 21 {
      PrestageIsGentle(c, d, q, input, last, d', q');
    } else if 32 <= Rank(q.pc) {
      TidyIsGentle(c, d, q, input, last, d', q');
    } else {
      ReplaceIsGentle(c, d, q, input, last, d', q');
    }
  }

  lemma AdvanceKeepsSettled(c: Config, d: Disk, q: Proc, input: Input, last: Bytes, d': Disk, q': Proc)
    requires Held(c, d, q, last) && Advance(c, d, q, input) == Some((d', q')) && Settled(c, d, q)
    ensures Settled(c, d', q')
  {
  }

  lemma WholeGrows(c: Config, h: seq<Event>, more: seq<Event>, content: Bytes)
    requires Whole(c, h, content)
    ensures Whole(c, h + more, content)
  {
    if content != c.initial {
      var k :| 0 <= k < |h| && h[k].Commit? && h[k].after == content;
      assert (h + more)[k] == h[k];
    }
  }

  /** The rename of a synced stage file: both the old and the new inode are whole and on stable storage. */
  lemma RenamingKeepsDurable(c: Config, d: Disk, p: nat, q: Proc, input: Input, h: seq<Event>, d': Disk, q': Proc)
    requires q.pc.Renaming? && Held(c, d, q, Last(c, h)) && Durable(c, d, h)
    requires Replace(c, d, q, input) == Some((d', q'))
    ensures Durable(c, d', h + Commits(d, p, q))
  {
    var h' := h + Commits(d, p, q);
    assert h'[|h|].Commit? && h'[|h|].after == d.At(q.stage.value).content;
    forall i | i in d'.maybe
      ensures i < |d'.inodes| && d'.inodes[i].synced && Whole(c, h', d'.inodes[i].content)
    {
      if i in d.maybe {
        WholeGrows(c, h, Commits(d, p, q), d.inodes[i].content);
      }
    }
  }
}

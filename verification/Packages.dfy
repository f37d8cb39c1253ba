/** What an archive offers: entries, and the one that may become the executable. */
module Packages {
  import opened Basics

  /** An entry as its reader presents it; `size` is what its header declares. */
  datatype Entry = Entry(name: string, regular: bool, size: nat, body: Bytes)

  /** The last element of a slash-separated path, as Go's path.Base gives it. */
  function PathBase(path: string): string {
    var p := TrimSlashes(path);
    if path == "" then "." else if p == "" then "/" else LastElement(p)
  }

  function TrimSlashes(p: string): string {
    if p != "" && p[|p| - 1] == '/' then TrimSlashes(p[..|p| - 1]) else p
  }

  function LastElement(p: string): string {
    if p == "" || p[|p| - 1] == '/' then "" else LastElement(p[..|p| - 1]) + [p[|p| - 1]]
  }

  /** Nothing but slashes. */
  predicate Slashes(s: string) { forall i :: 0 <= i < |s| ==> s[i] == '/' }

  lemma {:induction false} TrailingSlashesGo(p: string, slashes: string)
    requires Slashes(slashes) && (p == "" || p[|p| - 1] != '/')
    ensures TrimSlashes(p + slashes) == p
  {
    if slashes != "" {
      var s := p + slashes;
      assert s[..|s| - 1] == p + slashes[..|slashes| - 1];
      TrailingSlashesGo(p, slashes[..|slashes| - 1]);
    } else {
      assert p + slashes == p;
    }
  }

  lemma {:induction false} LastElementStands(dir: string, elem: string)
    requires '/' !in elem && (dir == "" || dir[|dir| - 1] == '/')
    ensures LastElement(dir + elem) == elem
  {
    var s := dir + elem;
    if elem != "" {
      assert s[..|s| - 1] == dir + elem[..|elem| - 1];
      LastElementStands(dir, elem[..|elem| - 1]);
      assert elem[..|elem| - 1] + [elem[|elem| - 1]] == elem;
    } else {
      assert s == dir;
    }
  }

  /**
   The base of a path is what stands between its last slashes, those at its end apart; of an empty path it is a dot, of
   slashes alone a slash.
   */
  lemma PathBaseIsLast(dir: string, elem: string, slashes: string)
    requires elem != "" && '/' !in elem && Slashes(slashes) && (dir == "" || dir[|dir| - 1] == '/')
    ensures PathBase(dir + elem + slashes) == elem
    ensures PathBase("") == "." && (slashes != "" ==> PathBase(slashes) == "/")
  {
    var p := dir + elem;
    assert p[|p| - 1] == elem[|elem| - 1];
    TrailingSlashesGo(p, slashes);
    LastElementStands(dir, elem);
    TrailingSlashesGo("", slashes);
    assert "" + slashes == slashes;
  }

  predicate IsCalled(e: Entry, member: string) { PathBase(e.name) == member }

  /** At the root, a regular file, not empty, not too large, and as long as declared. */
  predicate Acceptable(e: Entry, member: string) {
    e.name == member && e.regular && 0 < e.size <= MAX_BINARY_BYTES && |e.body| == e.size
  }

  function Select(entries: seq<Entry>, member: string): seq<Entry> {
    if entries == [] then []
    else if IsCalled(entries[0], member) then [entries[0]] + Select(entries[1..], member)
    else Select(entries[1..], member)
  }

  /** The body of the only entry whose base name is `member`, if it is acceptable. */
  function UniqueMember(entries: seq<Entry>, member: string): Option<Bytes> {
    var selected := Select(entries, member);
    if |selected| == 1 && Acceptable(selected[0], member) then Some(selected[0].body) else None
  }

  lemma {:induction false} SelectAppend(xs: seq<Entry>, ys: seq<Entry>, member: string)
    ensures Select(xs + ys, member) == Select(xs, member) + Select(ys, member)
  {
    if xs == [] {
      assert xs + ys == ys;
    } else {
      SelectAppend(xs[1..], ys, member);
      SelectCons(xs[0], xs[1..], ys, member);
      assert xs == [xs[0]] + xs[1..];
    }
  }

  lemma SelectHead(e: Entry, rest: seq<Entry>, member: string)
    ensures Select([e] + rest, member) == (if IsCalled(e, member) then [e] else []) + Select(rest, member)
  {
    assert ([e] + rest)[1..] == rest;
  }

  lemma SelectCons(e: Entry, xs: seq<Entry>, ys: seq<Entry>, member: string)
    requires Select(xs + ys, member) == Select(xs, member) + Select(ys, member)
    ensures Select([e] + xs + ys, member) == Select([e] + xs, member) + Select(ys, member)
  {
    assert [e] + xs + ys == [e] + (xs + ys);
    SelectHead(e, xs + ys, member);
    SelectHead(e, xs, member);
    Regroup(if IsCalled(e, member) then [e] else [], Select(xs, member), Select(ys, member));
  }

  lemma Regroup(xs: seq<Entry>, ys: seq<Entry>, zs: seq<Entry>)
    ensures xs + (ys + zs) == xs + ys + zs
  {
  }

  /** Selecting keeps exactly the matching entries, each as often as it occurs. */
  lemma {:induction false} SelectCounts(entries: seq<Entry>, member: string, e: Entry)
    ensures multiset(Select(entries, member))[e] == if IsCalled(e, member) then multiset(entries)[e] else 0
  {
    if entries != [] {
      SelectCounts(entries[1..], member, e);
      assert entries == [entries[0]] + entries[1..];
    }
  }

  lemma {:induction false} SelectNone(entries: seq<Entry>, member: string)
    ensures Select(entries, member) == [] <==> forall i :: 0 <= i < |entries| ==> !IsCalled(entries[i], member)
  {
    if entries != [] {
      SelectNone(entries[1..], member);
      assert forall i :: 1 <= i < |entries| ==> entries[i] == entries[1..][i - 1];
      assert forall i :: 0 <= i < |entries[1..]| ==> entries[1..][i] == entries[i + 1];
    }
  }

  /** The unique member, said without the selection: exactly one entry matches, and it is acceptable. */
  ghost predicate OnlyMemberAt(entries: seq<Entry>, member: string, i: nat) {
    && i < |entries| && IsCalled(entries[i], member) && entries[i].name == member && entries[i].regular
    && 0 < entries[i].size <= 268435456 && |entries[i].body| == entries[i].size
    && forall j :: 0 <= j < |entries| && j != i ==> !IsCalled(entries[j], member)
  }

  lemma {:induction false} UniqueMemberIsUnique(entries: seq<Entry>, member: string, body: Bytes)
    ensures UniqueMember(entries, member) == Some(body) <==>
            exists i: nat :: OnlyMemberAt(entries, member, i) && entries[i].body == body
  {
    if UniqueMember(entries, member) == Some(body) {
      var i := WhereSelected(entries, member);
    }
    if i: nat :| OnlyMemberAt(entries, member, i) && entries[i].body == body {
      SelectOnly(entries, member, i);
    }
  }

  lemma {:induction false} WhereSelected(entries: seq<Entry>, member: string) returns (i: nat)
    requires |Select(entries, member)| == 1
    ensures i < |entries| && entries[i] == Select(entries, member)[0] && IsCalled(entries[i], member)
    ensures forall j :: 0 <= j < |entries| && j != i ==> !IsCalled(entries[j], member)
  {
    if IsCalled(entries[0], member) {
      i := 0;
      SelectNone(entries[1..], member);
      assert forall j :: 1 <= j < |entries| ==> entries[j] == entries[1..][j - 1];
    } else {
      var k := WhereSelected(entries[1..], member);
      i := k + 1;
      assert forall j :: 1 <= j < |entries| ==> entries[j] == entries[1..][j - 1];
    }
  }

  lemma {:induction false} SelectOnly(entries: seq<Entry>, member: string, i: nat)
    requires i < |entries| && IsCalled(entries[i], member)
    requires forall j :: 0 <= j < |entries| && j != i ==> !IsCalled(entries[j], member)
    ensures Select(entries, member) == [entries[i]]
  {
    if i == 0 {
      SelectNone(entries[1..], member);
    } else {
      SelectOnly(entries[1..], member, i - 1);
    }
  }

  /** The order of the entries does not matter. */
  lemma UniqueMemberOfPermutation(xs: seq<Entry>, ys: seq<Entry>, member: string)
    requires multiset(xs) == multiset(ys)
    ensures UniqueMember(xs, member) == UniqueMember(ys, member)
  {
    var s, t := Select(xs, member), Select(ys, member);
    forall e ensures multiset(s)[e] == multiset(t)[e] {
      SelectCounts(xs, member, e);
      SelectCounts(ys, member, e);
    }
    assert multiset(s) == multiset(t);
    assert |s| == |multiset(s)| == |multiset(t)| == |t|;
    if |s| == 1 {
      assert s == [s[0]] && t == [t[0]];
      assert s[0] in multiset(t);
    }
  }
}

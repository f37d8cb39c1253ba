/** Which page of attestations may be asked for after another. */
module Pagination {
  import opened Basics
  import opened Links

  const PREDICATE := "https://slsa.dev/provenance/v1"

  /** A URL as the library reads it: path decoded and as written, query as written and by key. */
  datatype Url = Url(
    scheme: string, host: string, path: string, escapedPath: string, user: bool, fragment: string, rest: string,
    rawQuery: string, query: map<string, seq<string>>)

  datatype Library = Library(parse: string -> Option<Url>, format: Url -> string, resolve: (Url, Url) -> Url)

  /** An absolute URL with a host and a path that begins at the root. */
  predicate Absolute(u: Url) {
    u.scheme != "" && u.host != "" && u.path != "" && u.path[0] == '/'
  }

  /** Neither credentials nor a fragment nor anything but host, path and query. */
  predicate Plain(u: Url) { !u.user && u.fragment == "" && u.rest == "" }

  /** What the search prints: absolute plain URLs with an accepted query. */
  predicate Printed(u: Url) { Absolute(u) && Plain(u) && QueryOk(u.query) }

  /** Of the URLs that the search prints, each reads back as itself, if it reads back at all. */
  ghost predicate Faithful(lib: Library) {
    forall u :: Printed(u) && lib.parse(lib.format(u)).Some? ==> lib.parse(lib.format(u)).value == u
  }

  /*** The code's tests ***/

  function Fold(s: string): (r: string)
    ensures |r| == |s|
    ensures forall i :: 0 <= i < |s| ==> r[i] == if 'A' <= s[i] <= 'Z' then (s[i] as int + 32) as char else s[i]
  {
    if s == "" then ""
    else [if 'A' <= s[0] <= 'Z' then (s[0] as int + 32) as char else s[0]] + Fold(s[1..])
  }

  function Get(query: map<string, seq<string>>, key: string): string {
    if key in query && |query[key]| > 0 then query[key][0] else ""
  }

  /** The same endpoint: scheme, host but for its case, and path both ways. */
  predicate SameEndpoint(u: Url, v: Url) {
    v.scheme == u.scheme && Fold(v.host) == Fold(u.host) && v.path == u.path && v.escapedPath == u.escapedPath
  }

  predicate QueryOk(query: map<string, seq<string>>) {
    && Get(query, "predicate_type") == PREDICATE && Get(query, "per_page") == "100" && Get(query, "before") != ""
    && forall key :: key in query ==>
         (key == "predicate_type" || key == "per_page" || key == "before") && |query[key]| == 1
  }

  predicate Safe(lib: Library, current: Url, next: Url) {
    |lib.format(next)| <= 4096 && SameEndpoint(current, next) && Plain(next) && QueryOk(next.query)
  }

  /*** What they amount to ***/

  /** The same character, or the two cases of one ASCII letter. */
  predicate SameLetter(x: char, y: char) {
    || x == y
    || ('A' <= x <= 'Z' && y as int == x as int + 32)
    || ('A' <= y <= 'Z' && x as int == y as int + 32)
  }

  /** Equal but for the case of ASCII letters. */
  predicate SameHost(x: string, y: string) {
    |x| == |y| && forall i :: 0 <= i < |x| ==> SameLetter(x[i], y[i])
  }

  lemma FoldingTellsLetters(x: char, y: char)
    ensures var fold := (c: char) => if 'A' <= c <= 'Z' then (c as int + 32) as char else c;
            fold(x) == fold(y) <==> SameLetter(x, y)
  {
  }

  lemma FoldingTellsHosts(x: string, y: string)
    ensures Fold(x) == Fold(y) <==> SameHost(x, y)
  {
    if |x| == |y| {
      forall i | 0 <= i < |x| ensures Fold(x)[i] == Fold(y)[i] <==> SameLetter(x[i], y[i]) {
        FoldingTellsLetters(x[i], y[i]);
      }
    }
  }

  /** The accepted queries are the required parameters and one cursor, and nothing else. */
  lemma QueryIsExact(query: map<string, seq<string>>)
    ensures QueryOk(query) <==>
            exists cursor :: cursor != "" && query ==
              map["predicate_type" := ["https://slsa.dev/provenance/v1"], "per_page" := ["100"], "before" := [cursor]]
  {
    if QueryOk(query) {
      var cursor := query["before"][0];
      var q := map["predicate_type" := [PREDICATE], "per_page" := ["100"], "before" := [cursor]];
      assert query["before"] == [cursor] && query["per_page"] == ["100"] && query["predicate_type"] == [PREDICATE];
      assert query == q;
    }
  }

  /**
   A URL that may follow another one: scheme, path and, but for its case, host are the same; there are no credentials,
   no fragment and no opaque part; and the query is the two required parameters and one cursor.
   */
  ghost predicate MayFollow(u: Url, next: Url) {
    && next.scheme == u.scheme && SameHost(u.host, next.host)
    && next.path == u.path && next.escapedPath == u.escapedPath
    && !next.user && next.fragment == "" && next.rest == ""
    && exists cursor :: cursor != "" && next.query ==
         map["predicate_type" := ["https://slsa.dev/provenance/v1"], "per_page" := ["100"], "before" := [cursor]]
  }

  lemma SafeMeansMayFollow(lib: Library, u: Url, next: Url)
    ensures Safe(lib, u, next) <==> |lib.format(next)| <= 4096 && MayFollow(u, next)
  {
    QueryIsExact(next.query);
    FoldingTellsHosts(next.host, u.host);
    FoldingTellsHosts(u.host, next.host);
  }

  /*** Following a link ***/

  /** The URL of the page after `current`: None for a header that must not be followed, empty at the end. */
  function NextPage(lib: Library, current: string, header: string): Option<string> {
    match NextLink(header)
    case None => None
    case Some(next) =>
      if next == "" then Some("")
      else if lib.parse(current).None? || lib.parse(next).None? then None
      else
        var here, there := lib.parse(current).value, lib.parse(next).value;
        var target := if there.scheme == "" then lib.resolve(here, there) else there;
        if Safe(lib, here, target) then Some(lib.format(target)) else None
  }

  /**
   Where a next link leads: to the page it names, by itself or resolved against the current one, exactly if both URLs
   can be read, the page is no longer than allowed and may follow the current one.
   */
  ghost predicate Leads(lib: Library, current: string, next: string, r: Option<string>) {
    if lib.parse(current).None? || lib.parse(next).None? then r == None
    else
      var here, there := lib.parse(current).value, lib.parse(next).value;
      var target := if there.scheme == "" then lib.resolve(here, there) else there;
      r == if |lib.format(target)| <= 4096 && MayFollow(here, target) then Some(lib.format(target)) else None
  }

  /** A header without a next link ends the search, a malformed one stops it; a next link is followed if it may be. */
  method NextAttestationPage(lib: Library, current: string, header: string) returns (r: Option<string>)
    ensures r == NextPage(lib, current, header)
    ensures match NextLink(header)
            case None => r == None
            case Some(next) => if next == "" then r == Some("") else Leads(lib, current, next, r)
  {
    var next := ParseLinkHeader(header);
    if next.None? || next.value == "" {
      return next;
    }
    var currentUrl, nextUrl := lib.parse(current), lib.parse(next.value);
    if currentUrl.None? || nextUrl.None? {
      return None;
    }
    var target := nextUrl.value;
    if target.scheme == "" {
      target := lib.resolve(currentUrl.value, target);
    }
    SafeMeansMayFollow(lib, currentUrl.value, target);
    if !Safe(lib, currentUrl.value, target) {
      return None;
    }
    return Some(lib.format(target));
  }

  /*** Staying on track ***/

  /** The first page is an absolute URL. */
  predicate Begins(lib: Library, first: string) {
    lib.parse(first).Some? && Absolute(lib.parse(first).value)
  }

  /** A page the search may ask for, given the first one. */
  ghost predicate OnTrack(lib: Library, first: string, page: string)
    requires Begins(lib, first)
  {
    page == first || (|page| <= 4096 && exists u :: page == lib.format(u) && MayFollow(lib.parse(first).value, u))
  }

  lemma FollowersArePrinted(u: Url, v: Url)
    requires Absolute(u) && MayFollow(u, v)
    ensures Printed(v)
  {
    QueryIsExact(v.query);
  }

  lemma FollowingIsTransitive(u: Url, v: Url, next: Url)
    requires MayFollow(u, v) && MayFollow(v, next)
    ensures MayFollow(u, next)
  {
    assert forall i :: 0 <= i < |u.host| ==> SameLetter(u.host[i], v.host[i]) && SameLetter(v.host[i], next.host[i]);
  }

  /** Following a link stays on track, from wherever the links before it have led. */
  lemma FollowingStaysOnTrack(lib: Library, first: string, current: string, header: string)
    requires Faithful(lib) && Begins(lib, first) && OnTrack(lib, first, current)
    ensures var next := NextPage(lib, current, header);
            next.Some? && next.value != "" ==> OnTrack(lib, first, next.value)
  {
    var next := NextPage(lib, current, header);
    if next.Some? && next.value != "" {
      var start, here := lib.parse(first).value, lib.parse(current).value;
      var there := lib.parse(NextLink(header).value).value;
      var target := if there.scheme == "" then lib.resolve(here, there) else there;
      SafeMeansMayFollow(lib, here, target);
      if current != first {
        var u :| current == lib.format(u) && MayFollow(start, u);
        FollowersArePrinted(start, u);
        assert here == u;
        FollowingIsTransitive(start, u, target);
      }
      assert next.value == lib.format(target) && MayFollow(start, target);
    }
  }
}

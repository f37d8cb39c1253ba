/** The Link header of an attestation page, and where the search may go next. */
module Links {
  import opened Basics
  import opened Text

  /*** Trimming ***/

  predicate IsSpace(c: char) {
    || '\t' <= c <= '\r' || c == ' ' || c == '\U{0085}' || c == '\U{00A0}' || c == '\U{1680}'
    || '\U{2000}' <= c <= '\U{200A}' || c == '\U{2028}' || c == '\U{2029}' || c == '\U{202F}' || c == '\U{205F}'
    || c == '\U{3000}'
  }

  function TrimLeft(s: string): string {
    if s != "" && IsSpace(s[0]) then TrimLeft(s[1..]) else s
  }

  function TrimRight(s: string): string {
    if s != "" && IsSpace(s[|s| - 1]) then TrimRight(s[..|s| - 1]) else s
  }

  function TrimSpace(s: string): string { TrimRight(TrimLeft(s)) }

  /*** The header ***/

  const NEXT := "rel=\"next\""

  predicate NamesNext(sections: seq<string>) {
    exists i :: 0 <= i < |sections| && TrimSpace(sections[i]) == NEXT
  }

  predicate InBrackets(value: string) {
    |value| >= 3 && value[0] == '<' && value[|value| - 1] == '>'
  }

  /** The next link among these parts; `next` is the one found before them. None means malformed. */
  function FromParts(parts: seq<string>, next: string): Option<string> {
    if parts == [] then Some(next)
    else
      var sections := Split(parts[0], ';');
      if |sections| < 2 then None
      else if !NamesNext(sections[1..]) then FromParts(parts[1..], next)
      else
        var value := TrimSpace(sections[0]);
        if !InBrackets(value) || next != "" then None
        else FromParts(parts[1..], value[1..|value| - 1])
  }

  /** The next page a header names; empty when it names none. */
  function NextLink(header: string): Option<string> {
    if TrimSpace(header) == "" then Some("") else FromParts(Split(header, ','), "")
  }

  method FindNext(sections: seq<string>) returns (isNext: bool)
    ensures isNext <==> NamesNext(sections)
  {
    isNext := false;
    for i := 0 to |sections|
      invariant isNext <==> exists j :: 0 <= j < i && TrimSpace(sections[j]) == NEXT
    {
      if TrimSpace(sections[i]) == NEXT {
        isNext := true;
      }
    }
  }

  method ParseLinkHeader(header: string) returns (r: Option<string>)
    ensures r == NextLink(header)
  {
    if TrimSpace(header) == "" {
      return Some("");
    }
    var next := "";
    var parts := Split(header, ',');
    assert parts[0..] == parts;
    for i := 0 to |parts|
      invariant NextLink(header) == FromParts(parts[i..], next)
    {
      assert parts[i..][1..] == parts[i + 1..];
      var sections := Split(parts[i], ';');
      if |sections| < 2 {
        return None;
      }
      var isNext := FindNext(sections[1..]);
      if isNext {
        var value := TrimSpace(sections[0]);
        if |value| < 3 || value[0] != '<' || value[|value| - 1] != '>' || next != "" {
          return None;
        }
        next := value[1..|value| - 1];
      }
    }
    return Some(next);
  }

  /*** What headers mean ***/

  /** The white space of section 5.6.3 of RFC 9110. */
  predicate Blank(s: string) { forall i :: 0 <= i < |s| ==> s[i] == ' ' || s[i] == '\t' }

  predicate Visible(c: char) { '!' <= c <= '~' }

  /** A text between blanks. */
  datatype Padded = Padded(before: string, text: string, after: string)

  function Spread(p: Padded): string { p.before + p.text + p.after }

  /** The text is empty or begins and ends with something visible, and holds no separator. */
  predicate PaddedOk(p: Padded) {
    && Blank(p.before) && Blank(p.after) && ',' !in p.text && ';' !in p.text
    && (p.text == "" || (Visible(p.text[0]) && Visible(p.text[|p.text| - 1])))
  }

  /** What stands between two commas of a header: a target and parameters, as in section 3 of RFC 8288. */
  datatype Link = Link(target: Padded, params: seq<Padded>)

  predicate LinkOk(link: Link) {
    PaddedOk(link.target) && forall i :: 0 <= i < |link.params| ==> PaddedOk(link.params[i])
  }

  predicate LinksOk(links: seq<Link>) { forall i :: 0 <= i < |links| ==> LinkOk(links[i]) }

  function SpreadAll(params: seq<Padded>): (r: seq<string>)
    ensures |r| == |params| && forall i :: 0 <= i < |r| ==> r[i] == Spread(params[i])
  {
    seq(|params|, i requires 0 <= i < |params| => Spread(params[i]))
  }

  function Sections(link: Link): seq<string> { [Spread(link.target)] + SpreadAll(link.params) }

  function Written(link: Link): string { Join(Sections(link), ';') }

  function AllWritten(links: seq<Link>): (r: seq<string>)
    ensures |r| == |links| && forall i :: 0 <= i < |r| ==> r[i] == Written(links[i])
  {
    seq(|links|, i requires 0 <= i < |links| => Written(links[i]))
  }

  function Header(links: seq<Link>): string { Join(AllWritten(links), ',') }

  /** One of the parameters says that the link leads to the next page. */
  predicate IsNextLink(link: Link) {
    exists i :: 0 <= i < |link.params| && link.params[i].text == "rel=\"next\""
  }

  /** A link without parameters, or a next link whose target is not a URL in angle brackets. */
  predicate Malformed(link: Link) {
    var target := link.target.text;
    link.params == []
    || (IsNextLink(link) && !(|target| >= 3 && target[0] == '<' && target[|target| - 1] == '>'))
  }

  function Inside(target: string): string { if |target| >= 2 then target[1..|target| - 1] else "" }

  /** The URLs of the next links. */
  function NextUrls(links: seq<Link>): seq<string> {
    if links == [] then []
    else (if IsNextLink(links[0]) then [Inside(links[0].target.text)] else []) + NextUrls(links[1..])
  }

  lemma {:induction false} LeftBlanksGo(blank: string, s: string)
    requires Blank(blank) && (s == "" || !IsSpace(s[0]))
    ensures TrimLeft(blank + s) == s
  {
    if blank == "" {
      assert blank + s == s;
    } else {
      assert (blank + s)[1..] == blank[1..] + s;
      LeftBlanksGo(blank[1..], s);
    }
  }

  lemma {:induction false} RightBlanksGo(s: string, blank: string)
    requires Blank(blank) && (s == "" || !IsSpace(s[|s| - 1]))
    ensures TrimRight(s + blank) == s
  {
    if blank == "" {
      assert s + blank == s;
    } else {
      var n := |blank| - 1;
      assert (s + blank)[..|s| + n] == s + blank[..n];
      RightBlanksGo(s, blank[..n]);
    }
  }

  /** Blanks around a text are trimmed, and nothing else. */
  lemma PaddingGoes(p: Padded)
    requires PaddedOk(p)
    ensures TrimSpace(Spread(p)) == p.text
  {
    if p.text == "" {
      assert Spread(p) == (p.before + p.after) + "";
      LeftBlanksGo(p.before + p.after, "");
    } else {
      assert Spread(p) == p.before + (p.text + p.after);
      LeftBlanksGo(p.before, p.text + p.after);
      RightBlanksGo(p.text, p.after);
    }
  }

  lemma SpreadHasNoSeparator(p: Padded)
    requires PaddedOk(p)
    ensures ',' !in Spread(p) && ';' !in Spread(p)
  {
  }

  /** A written link is cut into its sections again. */
  lemma SectionsComeBack(link: Link)
    requires LinkOk(link)
    ensures ',' !in Written(link) && Split(Written(link), ';') == Sections(link)
  {
    var s := Sections(link);
    forall i | 0 <= i < |s| ensures ';' !in s[i] && ',' !in s[i] {
      SpreadHasNoSeparator(if i == 0 then link.target else link.params[i - 1]);
    }
    JoinHasNo(s, ';', ',');
    SplitJoin(s, ';');
  }

  lemma NamesComeBack(link: Link)
    requires LinkOk(link)
    ensures NamesNext(SpreadAll(link.params)) <==> IsNextLink(link)
  {
    var s := SpreadAll(link.params);
    forall i | 0 <= i < |s| ensures TrimSpace(s[i]) == link.params[i].text {
      PaddingGoes(link.params[i]);
    }
    if IsNextLink(link) {
      var i :| 0 <= i < |link.params| && link.params[i].text == "rel=\"next\"";
      assert TrimSpace(s[i]) == NEXT;
    }
  }

  /** What is left to find, after `next` has been found. */
  function Chosen(urls: seq<string>, next: string): Option<string> {
    if urls == [] then Some(next) else if next == "" && |urls| == 1 then Some(urls[0]) else None
  }

  lemma OneLinkIsRead(link: Link, rest: seq<string>, next: string)
    requires LinkOk(link)
    ensures FromParts([Written(link)] + rest, next) ==
            if Malformed(link) then None
            else if !IsNextLink(link) then FromParts(rest, next)
            else if next != "" then None else FromParts(rest, Inside(link.target.text))
  {
    var piece := Written(link);
    SectionsComeBack(link);
    NamesComeBack(link);
    PaddingGoes(link.target);
    assert Sections(link)[1..] == SpreadAll(link.params);
    assert ([piece] + rest)[1..] == rest;
  }

  lemma {:induction false} LinksAreRead(links: seq<Link>, next: string)
    requires LinksOk(links)
    ensures if exists i :: 0 <= i < |links| && Malformed(links[i]) then FromParts(AllWritten(links), next) == None
            else FromParts(AllWritten(links), next) == Chosen(NextUrls(links), next)
  {
    if links != [] {
      assert AllWritten(links) == [Written(links[0])] + AllWritten(links[1..]);
      OneLinkIsRead(links[0], AllWritten(links[1..]), next);
      LinksAreRead(links[1..], next);
      LinksAreRead(links[1..], Inside(links[0].target.text));
      assert forall i :: 0 < i < |links| ==> links[i] == links[1..][i - 1];
      assert forall i :: 0 <= i < |links| - 1 ==> links[1..][i] == links[i + 1];
    }
  }

  lemma {:induction false} OnlySpaceIsTrimmedAway(s: string, i: nat)
    requires i < |s| && !IsSpace(s[i])
    ensures TrimSpace(s) != ""
  {
    if IsSpace(s[0]) {
      OnlySpaceIsTrimmedAway(s[1..], i - 1);
    } else {
      TrimRightKeeps(s);
    }
  }

  lemma {:induction false} TrimRightKeeps(s: string)
    requires s != "" && !IsSpace(s[0])
    ensures TrimRight(s) != ""
  {
    if IsSpace(s[|s| - 1]) {
      TrimRightKeeps(s[..|s| - 1]);
    }
  }

  /** The header is nothing but blanks. */
  predicate Empty(links: seq<Link>) { |links| == 1 && links[0].params == [] && links[0].target.text == "" }

  lemma OnlyEmptyIsBlank(links: seq<Link>)
    requires LinksOk(links) && links != []
    ensures TrimSpace(Header(links)) == "" <==> Empty(links)
  {
    var parts, link := AllWritten(links), links[0];
    var header, first, target := Header(links), Written(link), Spread(link.target);
    assert header[..|first|] == first && first[..|target|] == target;
    if |links| > 1 {
      assert header[|first|] == ',';
      OnlySpaceIsTrimmedAway(header, |first|);
    } else if link.params != [] {
      assert first[|target|] == ';';
      OnlySpaceIsTrimmedAway(header, |target|);
    } else {
      PaddingGoes(link.target);
    }
  }

  /**
   What any header says: nothing when it is blank; it is refused when a link in it is malformed or more than one leads
   on; and else it leads to its one next link, or nowhere.
   */
  lemma HeadersAreRead(links: seq<Link>)
    requires LinksOk(links) && links != []
    ensures NextLink(Header(links)) ==
            if Empty(links) then Some("")
            else if exists i :: 0 <= i < |links| && Malformed(links[i]) then None
            else match |NextUrls(links)| case 0 => Some("") case 1 => Some(NextUrls(links)[0]) case _ => None
  {
    var header := Header(links);
    OnlyEmptyIsBlank(links);
    forall i | 0 <= i < |links| ensures ',' !in AllWritten(links)[i] {
      SectionsComeBack(links[i]);
    }
    SplitJoin(AllWritten(links), ',');
    LinksAreRead(links, "");
  }
}

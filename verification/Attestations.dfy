/** The search for a valid attestation: pages of candidates, soft and hard failures, limits. */
module Attestations {
  import opened Basics
  import opened Plans
  import opened Pagination

  const MAX_PAGES := 3
  const MAX_ATTESTATIONS := 300

  /*** What the search meets ***/

  /** `context` says that the caller's patience, and not the attestation, is the cause. */
  datatype Error = Error(text: string, context: bool)

  /**
   A candidate: whether the caller gave up before it, where its bundle is, what fetching the bundle gives, and when the
   verifier is asked about it.
   */
  datatype Attestation = Attestation(
    cancelled: Option<Error>, bundleUrl: string, bundle: Result<Bytes, Error>, moment: nat)

  /** The answer to one request for a page. */
  datatype Page = Page(cancelled: Option<Error>, body: Result<seq<Attestation>, Error>, link: string)

  /** What the verifier says, at a given moment, of a bundle and a request; None means that it accepts. */
  type Verifier = (nat, Bytes, Request) -> Option<Error>

  /** From a page and its Link header to the next page. */
  type Follow = (string, string) -> Option<string>

  function Following(lib: Library): Follow {
    (current, header) => NextPage(lib, current, header)
  }

  predicate Asks(current: string, header: string) { true }

  /** Links are followed as NextPage says; the trigger keeps that out of sight where no link is followed. */
  ghost predicate Follows(follow: Follow, lib: Library) {
    forall current, header {:trigger Asks(current, header)} :: follow(current, header) == NextPage(lib, current, header)
  }

  /** One search: how links are followed, what the server answers in turn, who verifies, and what is asked. */
  datatype Search = Search(follow: Follow, server: nat -> Page, verify: Verifier, request: Request)

  datatype Verdict = Valid | Soft(soft: Error) | Hard(hard: Error)

  const NO_BUNDLE := Error("attestation has no bundle URL", false)
  const TOO_MANY := Error("attestation result limit exceeded", false)
  const TOO_FAR := Error("attestation pagination limit exceeded", false)
  const BAD_LINK := Error("bad attestation next-page link", false)
  const NONE_FOUND := Error("no artifact attestations found", false)

  function Judge(s: Search, a: Attestation): Verdict {
    if a.cancelled.Some? then Hard(a.cancelled.value)
    else if a.bundleUrl == "" then Soft(NO_BUNDLE)
    else match a.bundle
      case Err(e) => if e.context then Hard(e) else Soft(e)
      case Ok(bundle) =>
        match s.verify(a.moment, bundle, s.request)
        case None => Valid
        case Some(e) => if e.context then Hard(e) else Soft(e)
  }

  function Verdicts(s: Search, candidates: seq<Attestation>): seq<Verdict> {
    if candidates == [] then [] else [Judge(s, candidates[0])] + Verdicts(s, candidates[1..])
  }

  /** All that there is to meet on a page, and `rest` if nothing stops the search before. */
  function FromPage(s: Search, page: Page, seen: nat, rest: seq<Verdict>): seq<Verdict> {
    if page.cancelled.Some? then [Hard(page.cancelled.value)]
    else match page.body
      case Err(e) => [Hard(e)]
      case Ok(candidates) =>
        if |candidates| > MAX_ATTESTATIONS - seen then [Hard(TOO_MANY)] else Verdicts(s, candidates) + rest
  }

  function Count(page: Page): nat {
    if page.body.Ok? then |page.body.value| else 0
  }

  /*** What a search can show for itself ***/

  /** The caller is still there, the candidate says where its bundle is, and the verifier accepts that bundle. */
  predicate Endorsed(verify: Verifier, request: Request, a: Attestation) {
    && a.cancelled.None? && a.bundleUrl != "" && a.bundle.Ok?
    && verify(a.moment, a.bundle.value, request) == None
  }

  /**
   This is what is wrong with the candidate: it does not say where its bundle is, the bundle cannot be fetched, or the
   verifier does not accept it.
   */
  predicate Blamed(verify: Verifier, request: Request, a: Attestation, e: Error) {
    if a.bundleUrl == "" then e == Error("attestation has no bundle URL", false)
    else if a.bundle.Err? then a.bundle.error == e
    else verify(a.moment, a.bundle.value, request) == Some(e)
  }

  /** The caller is still there, and something is wrong with the candidate, but only with this one. */
  predicate PassedOver(verify: Verifier, request: Request, a: Attestation) {
    && a.cancelled.None?
    && (|| a.bundleUrl == ""
        || (a.bundle.Err? && !a.bundle.error.context)
        || (a.bundle.Ok? && var answer := verify(a.moment, a.bundle.value, request);
                            answer.Some? && !answer.value.context))
  }

  /** The caller has given up, before the candidate or while it was fetched or verified. */
  predicate BreaksOff(verify: Verifier, request: Request, a: Attestation, e: Error) {
    if a.cancelled.Some? then a.cancelled.value == e else Blamed(verify, request, a, e) && e.context
  }

  /** What the verdicts on a candidate mean. */
  lemma VerdictsMean(s: Search, a: Attestation)
    ensures Judge(s, a).Valid? <==> Endorsed(s.verify, s.request, a)
    ensures Judge(s, a).Soft? <==> PassedOver(s.verify, s.request, a)
    ensures forall e :: Judge(s, a) == Soft(e) ==> Blamed(s.verify, s.request, a, e)
    ensures forall e :: Judge(s, a) == Hard(e) <==> BreaksOff(s.verify, s.request, a, e)
  {
  }

  /** The first n of these candidates failed, each only on its own account. */
  predicate AllPassedOver(verify: Verifier, request: Request, candidates: seq<Attestation>, n: nat) {
    n <= |candidates| && forall i :: 0 <= i < n ==> PassedOver(verify, request, candidates[i])
  }

  /** The page was fetched, and nothing on it decided. */
  predicate Passed(verify: Verifier, request: Request, page: Page) {
    page.cancelled.None? && page.body.Ok? && AllPassedOver(verify, request, page.body.value, |page.body.value|)
  }

  /** The page was fetched, and the candidate at that place was the first on it to decide: it was accepted. */
  predicate Won(verify: Verifier, request: Request, page: Page, index: nat) {
    && page.cancelled.None? && page.body.Ok? && index < |page.body.value|
    && AllPassedOver(verify, request, page.body.value, index)
    && Endorsed(verify, request, page.body.value[index])
  }

  function Total(pages: seq<Page>): nat {
    if pages == [] then 0 else Total(pages[..|pages| - 1]) + Count(pages[|pages| - 1])
  }

  /** The transcript of a search: what was asked, all the pages that came, and the place of a candidate on the last. */
  datatype Evidence = Evidence(request: Request, pages: seq<Page>, index: nat)

  /**
   The search keeps to its limits, nothing on the pages before decided, and on the last page the candidate was the first
   to decide: the verifier has accepted its bundle for exactly this request.
   */
  predicate Accepted(verify: Verifier, e: Evidence) {
    && 0 < |e.pages| <= 3 && Total(e.pages) <= 300
    && (forall k :: 0 <= k < |e.pages| - 1 ==> Passed(verify, e.request, e.pages[k]))
    && Won(verify, e.request, e.pages[|e.pages| - 1], e.index)
  }

  /** Where page k, asked for as `url`, leads. */
  function Onwards(s: Search, k: nat, url: string): Option<string> { s.follow(url, s.server(k).link) }

  /**
   All that the search can meet from page k on, in order; limits, links and failed fetches are verdicts too. There is
   no `url` after a link that must not be followed.
   */
  function Stream(s: Search, k: nat, url: Option<string>, seen: nat): seq<Verdict>
    decreases MAX_PAGES - k
  {
    match url
    case None => [Hard(BAD_LINK)]
    case Some(page) =>
      if page == "" then []
      else if k >= MAX_PAGES then [Hard(TOO_FAR)]
      else FromPage(s, s.server(k), seen, Stream(s, k + 1, Onwards(s, k, page), seen + Count(s.server(k))))
  }

  /** The flat search: the first verdict that is not soft decides; otherwise the first soft failure is the cause. */
  function FlatSearch(stream: seq<Verdict>, first: Option<Error>): Result<(), Error> {
    if stream == [] then Err(if first.Some? then first.value else NONE_FOUND)
    else match stream[0]
      case Valid => Ok(())
      case Hard(e) => Err(e)
      case Soft(e) => FlatSearch(stream[1..], KeepFirst(first, e))
  }

  function KeepFirst(first: Option<Error>, candidate: Error): Option<Error> {
    if first.Some? then first else Some(candidate)
  }

  /*** The paged search ***/

  datatype Progress = Found | Stopped(error: Error) | Onward(first: Option<Error>)

  /** What the search comes to, when so much is known and `rest` is still to come. */
  function Resume(r: Progress, rest: seq<Verdict>): Result<(), Error> {
    match r
    case Found => Ok(())
    case Stopped(e) => Err(e)
    case Onward(first) => FlatSearch(rest, first)
  }

  function OneVerdict(v: Verdict, first: Option<Error>): Progress {
    match v
    case Valid => Found
    case Hard(e) => Stopped(e)
    case Soft(e) => Onward(KeepFirst(first, e))
  }

  lemma VerdictsUnfold(s: Search, candidates: seq<Attestation>, first: Option<Error>, rest: seq<Verdict>)
    requires candidates != []
    ensures FlatSearch(Verdicts(s, candidates) + rest, first) ==
            Resume(OneVerdict(Judge(s, candidates[0]), first), Verdicts(s, candidates[1..]) + rest)
  {
    var stream := Verdicts(s, candidates) + rest;
    assert stream[0] == Judge(s, candidates[0]);
    assert stream[1..] == Verdicts(s, candidates[1..]) + rest;
  }

  /** Goes through one page; whatever follows it, the search comes to the same. */
  method SearchPage(s: Search, candidates: seq<Attestation>, firstFailure: Option<Error>, ghost rest: seq<Verdict>)
    returns (r: Progress, ghost index: nat)
    ensures FlatSearch(Verdicts(s, candidates) + rest, firstFailure) == Resume(r, rest)
    ensures AllPassedOver(s.verify, s.request, candidates, index)
    ensures r.Found? ==> index < |candidates| && Endorsed(s.verify, s.request, candidates[index])
    ensures r.Onward? ==> index == |candidates|
  {
    var first := firstFailure;
    assert candidates[0..] == candidates;
    for i := 0 to |candidates|
      invariant FlatSearch(Verdicts(s, candidates) + rest, firstFailure)
                == FlatSearch(Verdicts(s, candidates[i..]) + rest, first)
      invariant AllPassedOver(s.verify, s.request, candidates, i)
    {
      VerdictsUnfold(s, candidates[i..], first, rest);
      VerdictsMean(s, candidates[i]);
      assert candidates[i..][1..] == candidates[i + 1..];
      var a := candidates[i];
      if a.cancelled.Some? {
        return Stopped(a.cancelled.value), i;
      }
      if a.bundleUrl == "" {
        first := KeepFirst(first, NO_BUNDLE);
      } else if a.bundle.Err? {
        if a.bundle.error.context {
          return Stopped(a.bundle.error), i;
        }
        first := KeepFirst(first, a.bundle.error);
      } else {
        var failure := s.verify(a.moment, a.bundle.value, s.request);
        if failure.None? {
          return Found, i;
        }
        if failure.value.context {
          return Stopped(failure.value), i;
        }
        first := KeepFirst(first, failure.value);
      }
    }
    assert Verdicts(s, []) + rest == rest;
    return Onward(first), |candidates|;
  }

  /** For each page, as which URL it is asked for, and how many candidates were seen before: what there is to meet. */
  type Ahead = (nat, Option<string>, nat) -> seq<Verdict>

  /** What there is to meet from page k on, given what there is from page k + 1 on. */
  function OneAhead(s: Search, ahead: Ahead, k: nat, url: Option<string>, seen: nat): seq<Verdict> {
    match url
    case None => [Hard(BAD_LINK)]
    case Some(page) =>
      if page == "" then []
      else if k >= MAX_PAGES then [Hard(TOO_FAR)]
      else FromPage(s, s.server(k), seen, ahead(k + 1, Onwards(s, k, page), seen + Count(s.server(k))))
  }

  predicate Told(k: nat, url: Option<string>, seen: nat) { true }

  /** `ahead` looks ahead step by step; the trigger keeps that out of sight where no step is taken. */
  ghost predicate LooksAhead(s: Search, ahead: Ahead) {
    forall k, url, seen {:trigger Told(k, url, seen)} :: ahead(k, url, seen) == OneAhead(s, ahead, k, url, seen)
  }

  lemma StreamLooksAhead(s: Search, k: nat, url: Option<string>, seen: nat) returns (ahead: Ahead)
    ensures LooksAhead(s, ahead) && ahead(k, url, seen) == Stream(s, k, url, seen)
  {
    ahead := (k: nat, url: Option<string>, seen: nat) => Stream(s, k, url, seen);
    forall j: nat, next: Option<string>, sum: nat ensures ahead(j, next, sum) == OneAhead(s, ahead, j, next, sum) {
      assert ahead(j, next, sum) == Stream(s, j, next, sum);
      if next.Some? && next.value != "" && j < MAX_PAGES {
        var k', url', seen' := j + 1, Onwards(s, j, next.value), sum + Count(s.server(j));
        assert ahead(k', url', seen') == Stream(s, k', url', seen');
      }
    }
  }

  /** Where there is no page left, or none may be asked for. */
  lemma SearchEnds(s: Search, ahead: Ahead, k: nat, url: string, seen: nat, first: Option<Error>)
    requires LooksAhead(s, ahead) && (url == "" || k == MAX_PAGES)
    ensures FlatSearch(ahead(k, Some(url), seen), first) ==
            Err(if url != "" then TOO_FAR else if first.Some? then first.value else NONE_FOUND)
  {
    assert Told(k, Some(url), seen);
  }

  lemma BadLinkStops(s: Search, ahead: Ahead, k: nat, seen: nat, first: Option<Error>)
    requires LooksAhead(s, ahead)
    ensures FlatSearch(ahead(k, None, seen), first) == Err(BAD_LINK)
  {
    assert Told(k, None, seen);
  }

  /** What there is to find from page k on: what the page offers, and then whatever its link leads to. */
  lemma PageAhead(s: Search, ahead: Ahead, k: nat, url: string, seen: nat) returns (rest: seq<Verdict>)
    requires LooksAhead(s, ahead) && k < MAX_PAGES && url != ""
    ensures rest == ahead(k + 1, Onwards(s, k, url), seen + Count(s.server(k)))
    ensures ahead(k, Some(url), seen) == FromPage(s, s.server(k), seen, rest)
  {
    assert Told(k, Some(url), seen);
    rest := ahead(k + 1, Onwards(s, k, url), seen + Count(s.server(k)));
  }

  /** What a page has shown when the search found something on it, or went on from it. */
  predicate Shown(s: Search, page: Page, seen: nat, r: Progress, asked: bool, index: nat) {
    && (!r.Stopped? ==> asked && seen + Count(page) <= MAX_ATTESTATIONS)
    && (r.Found? ==> Won(s.verify, s.request, page, index))
    && (r.Onward? ==> Passed(s.verify, s.request, page))
  }

  /** Fetches a page and goes through it; `asked` tells whether it got as far as asking for it. */
  method SearchFrom(s: Search, page: Page, seen: nat, firstFailure: Option<Error>, ghost rest: seq<Verdict>)
    returns (r: Progress, asked: bool, ghost index: nat)
    requires seen <= MAX_ATTESTATIONS
    ensures FlatSearch(FromPage(s, page, seen, rest), firstFailure) == Resume(r, rest)
    ensures Shown(s, page, seen, r, asked, index)
  {
    asked, index := false, 0;
    if page.cancelled.Some? {
      return Stopped(page.cancelled.value), asked, index;
    }
    asked := true;
    if page.body.Err? {
      return Stopped(page.body.error), asked, index;
    }
    var candidates := page.body.value;
    if |candidates| > MAX_ATTESTATIONS - seen {
      return Stopped(TOO_MANY), asked, index;
    }
    r, index := SearchPage(s, candidates, firstFailure, rest);
  }

  /** Page k was asked for because the page before it led there; the first because it is the first. */
  ghost predicate LedTo(s: Search, first: string, requested: seq<string>, k: nat)
    requires k < |requested|
  {
    && requested[k] != ""
    && if k == 0 then requested[0] == first
       else s.follow(requested[k - 1], s.server(k - 1).link) == Some(requested[k])
  }

  ghost predicate Chain(s: Search, first: string, requested: seq<string>) {
    forall k: nat :: k < |requested| ==> LedTo(s, first, requested, k)
  }

  lemma ChainGrows(s: Search, first: string, requested: seq<string>, url: string)
    requires Chain(s, first, requested) && Whither(s, first, requested) == Some(url) && url != ""
    ensures Chain(s, first, requested + [url])
  {
    forall k: nat | k <= |requested| ensures LedTo(s, first, requested + [url], k) {
      assert k < |requested| ==> LedTo(s, first, requested, k);
    }
  }

  lemma ChainShortens(s: Search, first: string, requested: seq<string>, n: nat)
    requires Chain(s, first, requested) && n <= |requested|
    ensures Chain(s, first, requested[..n])
  {
    forall k: nat | k < n ensures LedTo(s, first, requested[..n], k) {
      assert LedTo(s, first, requested, k);
    }
  }

  method FollowLink(lib: Library, s: Search, k: nat, url: string) returns (next: Option<string>)
    requires Follows(s.follow, lib)
    ensures next == Onwards(s, k, url)
  {
    assert Asks(url, s.server(k).link);
    next := NextAttestationPage(lib, url, s.server(k).link);
  }

  /** Everything the search does with one page, up to knowing the next. */
  method SearchOnce(
    lib: Library, s: Search, k: nat, url: string, seen: nat, firstFailure: Option<Error>, ghost rest: seq<Verdict>)
    returns (r: Progress, asked: bool, next: Option<string>, ghost index: nat)
    requires Follows(s.follow, lib) && k < MAX_PAGES && seen <= MAX_ATTESTATIONS
    ensures FlatSearch(FromPage(s, s.server(k), seen, rest), firstFailure) == Resume(r, rest)
    ensures Shown(s, s.server(k), seen, r, asked, index) && (r.Onward? ==> next == Onwards(s, k, url))
  {
    next := None;
    r, asked, index := SearchFrom(s, s.server(k), seen, firstFailure, rest);
    if r.Onward? {
      next := FollowLink(lib, s, k, url);
    }
  }

  /** How many candidates the first n pages offer. */
  function Seen(s: Search, n: nat): nat { if n == 0 then 0 else Seen(s, n - 1) + Count(s.server(n - 1)) }

  /** The first n pages keep to the limits, and nothing on them decided. */
  ghost predicate PassedAll(s: Search, n: nat, seen: nat) {
    && seen == Seen(s, n) <= 300
    && forall k :: 0 <= k < n ==> Passed(s.verify, s.request, s.server(k))
  }

  /** The search wins on its n-th page, and keeps to the limits. */
  ghost predicate WonOnPage(s: Search, n: nat, index: nat) {
    && 0 < n <= 3 && Seen(s, n) <= 300
    && PassedAll(s, n - 1, Seen(s, n - 1)) && Won(s.verify, s.request, s.server(n - 1), index)
  }

  /** One round of the search: found, stopped, or on to the next page. */
  method SearchRound(
    lib: Library, s: Search, ghost ahead: Ahead, k: nat, url: string, seen: nat, firstFailure: Option<Error>)
    returns (r: Progress, asked: bool, next: string, ghost index: nat)
    requires Follows(s.follow, lib) && LooksAhead(s, ahead) && k < MAX_PAGES && url != "" && PassedAll(s, k, seen)
    ensures FlatSearch(ahead(k, Some(url), seen), firstFailure) ==
            if r.Onward? then FlatSearch(ahead(k + 1, Some(next), seen + Count(s.server(k))), r.first)
            else Resume(r, [])
    ensures !r.Stopped? ==> asked
    ensures r.Found? ==> WonOnPage(s, k + 1, index)
    ensures r.Onward? ==> PassedAll(s, k + 1, seen + Count(s.server(k))) && Onwards(s, k, url) == Some(next)
  {
    ghost var rest := PageAhead(s, ahead, k, url, seen);
    var following;
    r, asked, following, index := SearchOnce(lib, s, k, url, seen, firstFailure, rest);
    next := "";
    if r.Onward? {
      match following
      case None =>
        BadLinkStops(s, ahead, k + 1, seen + Count(s.server(k)), r.first);
        r := Stopped(BAD_LINK);
      case Some(url') => next := url';
    }
  }

  /** What a search that begins at this page comes to. */
  function Answer(s: Search, first: string): Result<(), Error> {
    FlatSearch(Stream(s, 0, Some(first), 0), None)
  }

  /** The first n pages that the server sent. */
  function Received(s: Search, n: nat): (pages: seq<Page>)
    ensures |pages| == n && forall k :: 0 <= k < n ==> pages[k] == s.server(k)
  {
    seq(n, (k: nat) => s.server(k))
  }

  function Transcript(s: Search, n: nat, index: nat): Evidence { Evidence(s.request, Received(s, n), index) }

  lemma {:induction false} TotalReceived(s: Search, n: nat)
    ensures Total(Received(s, n)) == Seen(s, n)
  {
    if n > 0 {
      TotalReceived(s, n - 1);
      assert Received(s, n)[..n - 1] == Received(s, n - 1);
    }
  }

  lemma TranscriptIsAccepted(s: Search, n: nat, index: nat)
    ensures WonOnPage(s, n, index) <==> Accepted(s.verify, Transcript(s, n, index))
  {
    TotalReceived(s, n);
    if Accepted(s.verify, Transcript(s, n, index)) {
      forall k | 0 <= k < n - 1 ensures Passed(s.verify, s.request, s.server(k)) {
        assert Passed(s.verify, s.request, Received(s, n)[k]);
      }
    }
  }

  /** Looks through at most three pages and three hundred attestations, and finds what the flat search finds. */
  method SearchPages(lib: Library, s: Search, first: string)
    returns (r: Result<(), Error>, requested: seq<string>, ghost index: nat)
    requires Follows(s.follow, lib)
    ensures r == Answer(s, first)
    ensures |requested| <= MAX_PAGES && Chain(s, first, requested)
    ensures r.Ok? ==> WonOnPage(s, |requested|, index)
  {
    var seen: nat, page: nat := 0, 0;
    var pageUrl, firstFailure := first, None;
    ghost var ahead := StreamLooksAhead(s, 0, Some(first), 0);
    requested, index := [], 0;
    while page < MAX_PAGES && pageUrl != ""
      invariant page <= MAX_PAGES && |requested| == page && PassedAll(s, page, seen)
      invariant Chain(s, first, requested) && Whither(s, first, requested) == Some(pageUrl)
      invariant Answer(s, first) == FlatSearch(ahead(page, Some(pageUrl), seen), firstFailure)
      decreases MAX_PAGES - page
    {
      ChainGrows(s, first, requested, pageUrl);
      var progress, asked, next;
      progress, asked, next, index := SearchRound(lib, s, ahead, page, pageUrl, seen, firstFailure);
      requested := if asked then requested + [pageUrl] else requested;
      if progress.Stopped? {
        return Err(progress.error), requested, index;
      }
      if progress.Found? {
        return Ok(()), requested, index;
      }
      firstFailure, seen, pageUrl, page := progress.first, seen + Count(s.server(page)), next, page + 1;
    }
    SearchEnds(s, ahead, page, pageUrl, seen, firstFailure);
    if pageUrl != "" {
      return Err(TOO_FAR), requested, index;
    }
    return Err(if firstFailure.Some? then firstFailure.value else NONE_FOUND), requested, index;
  }

  /** Every page the search asks for is on track. */
  lemma {:induction false} ChainStaysOnTrack(
    lib: Library, s: Search, first: string, requested: seq<string>, k: nat)
    requires Faithful(lib) && Begins(lib, first) && Follows(s.follow, lib)
    requires Chain(s, first, requested) && k < |requested|
    ensures OnTrack(lib, first, requested[k])
  {
    assert LedTo(s, first, requested, k);
    if k > 0 {
      ChainStaysOnTrack(lib, s, first, requested, k - 1);
      assert Asks(requested[k - 1], s.server(k - 1).link);
      FollowingStaysOnTrack(lib, first, requested[k - 1], s.server(k - 1).link);
    }
  }

  /** The evidence is the transcript of this search: the pages it asked for, each where the one before led. */
  ghost predicate FromSearch(s: Search, first: string, e: Evidence) {
    exists requested :: Chain(s, first, requested) && e == Transcript(s, |requested|, e.index)
  }

  function SearchFor(lib: Library, server: nat -> Page, verify: Verifier, record: Record): Search {
    Search(Following(lib), server, verify, RequestOf(record))
  }

  /** The search has a transcript to show. */
  ghost predicate Succeeds(s: Search, first: string) {
    exists requested, index :: Chain(s, first, requested) && Accepted(s.verify, Transcript(s, |requested|, index))
  }

  /** The search fails with this error. */
  ghost predicate FailsWith(s: Search, first: string, e: Error) {
    exists passed :: FailsAfter(s, first, passed, e)
  }

  /**
   On success, the record of this very release asset, and the transcript that ends in the bundle accepted for it. It
   succeeds exactly if such a transcript can be had, and fails with exactly the error that the search fails with.
   */
  method VerifyAttestation(
    lib: Library, server: nat -> Page, verify: Verifier, first: string, u: Updater, version: string, asset: Asset)
    returns (r: Result<Record, Error>, requested: seq<string>, ghost evidence: Evidence)
    ensures var s := SearchFor(lib, server, verify, NewRecord(u, version, asset));
            && |requested| <= MAX_PAGES && Chain(s, first, requested)
            && r == match Answer(s, first)
                    case Ok(_) => Ok(NewRecord(u, version, asset))
                    case Err(e) => Err(e)
    ensures var s := SearchFor(lib, server, verify, NewRecord(u, version, asset));
            r.Ok? ==>
              && evidence.request == RequestOf(r.value) && evidence.pages == Received(s, |requested|)
              && Accepted(verify, evidence)
    ensures var s := SearchFor(lib, server, verify, NewRecord(u, version, asset));
            && (r.Ok? <==> Succeeds(s, first))
            && (forall e :: r == Err(e) <==> FailsWith(s, first, e))
  {
    var s := SearchFor(lib, server, verify, NewRecord(u, version, asset));
    var found;
    ghost var index;
    found, requested, index := SearchPages(lib, s, first);
    r := match found case Ok(_) => Ok(NewRecord(u, version, asset)) case Err(e) => Err(e);
    evidence := Transcript(s, |requested|, index);
    TranscriptIsAccepted(s, |requested|, index);
    SearchIsDecided(s, first);
  }

  /*** What the flat search means ***/

  predicate AllSoft(stream: seq<Verdict>) { forall i :: 0 <= i < |stream| ==> stream[i].Soft? }

  /** The search succeeds exactly if some verdict is valid and none before it is hard. */
  lemma {:induction false} SearchSucceeds(stream: seq<Verdict>, first: Option<Error>)
    ensures FlatSearch(stream, first).Ok? <==>
            exists i :: 0 <= i < |stream| && stream[i].Valid? && forall j :: 0 <= j < i ==> !stream[j].Hard?
  {
    if stream != [] && stream[0].Soft? {
      SearchSucceeds(stream[1..], KeepFirst(first, stream[0].soft));
      if i :| 0 <= i < |stream| && stream[i].Valid? && forall j :: 0 <= j < i ==> !stream[j].Hard? {
        assert stream[1..][i - 1].Valid? && forall j :: 0 <= j < i - 1 ==> stream[1..][j] == stream[j + 1];
      }
      if i :| 0 <= i < |stream[1..]| && stream[1..][i].Valid? && forall j :: 0 <= j < i ==> !stream[1..][j].Hard? {
        assert stream[i + 1].Valid? && forall j :: 1 <= j < i + 1 ==> stream[j] == stream[1..][j - 1];
      }
    }
  }

  /** Soft failures mask nothing: what comes after them is found as if they were not there. */
  lemma {:induction false} SoftFailuresMaskNothing(soft: seq<Verdict>, rest: seq<Verdict>, first: Option<Error>)
    requires AllSoft(soft)
    ensures FlatSearch(soft + rest, first) ==
            FlatSearch(rest, if first.Some? || soft == [] then first else Some(soft[0].soft))
  {
    if soft == [] {
      assert soft + rest == rest;
    } else {
      assert (soft + rest)[1..] == soft[1..] + rest;
      SoftFailuresMaskNothing(soft[1..], rest, KeepFirst(first, soft[0].soft));
    }
  }

  /** When nothing decides, the first soft failure is the cause that is reported. */
  lemma FirstFailureIsReported(soft: seq<Verdict>)
    requires AllSoft(soft)
    ensures FlatSearch(soft, None) == Err(if soft == [] then NONE_FOUND else soft[0].soft)
  {
    SoftFailuresMaskNothing(soft, [], None);
    assert soft + [] == soft;
  }

  lemma {:induction false} VerdictsLength(s: Search, candidates: seq<Attestation>)
    ensures |Verdicts(s, candidates)| == |candidates|
    ensures forall i :: 0 <= i < |candidates| ==> Verdicts(s, candidates)[i] == Judge(s, candidates[i])
  {
    if candidates != [] {
      VerdictsLength(s, candidates[1..]);
    }
  }

  lemma FromPageLength(s: Search, page: Page, seen: nat, rest: seq<Verdict>)
    requires seen <= MAX_ATTESTATIONS && |rest| <= 1 + if seen + Count(page) <= MAX_ATTESTATIONS
                                                     then MAX_ATTESTATIONS - seen - Count(page) else 0
    ensures |FromPage(s, page, seen, rest)| <= MAX_ATTESTATIONS - seen + 1
  {
    if page.body.Ok? {
      VerdictsLength(s, page.body.value);
    }
  }

  lemma {:induction false} AheadIsShort(s: Search, ahead: Ahead, k: nat, url: Option<string>, seen: nat)
    requires LooksAhead(s, ahead)
    ensures |ahead(k, url, seen)| <= 1 + if seen <= MAX_ATTESTATIONS then MAX_ATTESTATIONS - seen else 0
    decreases MAX_PAGES - k
  {
    if url.Some? && url.value != "" && k < MAX_PAGES {
      var rest := PageAhead(s, ahead, k, url.value, seen);
      AheadIsShort(s, ahead, k + 1, Onwards(s, k, url.value), seen + Count(s.server(k)));
      if seen <= MAX_ATTESTATIONS {
        FromPageLength(s, s.server(k), seen, rest);
      }
    } else {
      assert Told(k, url, seen);
    }
  }

  /** The search never judges more than three hundred attestations. */
  lemma StreamIsShort(s: Search, first: string)
    ensures |Stream(s, 0, Some(first), 0)| <= MAX_ATTESTATIONS + 1
  {
    var ahead := StreamLooksAhead(s, 0, Some(first), 0);
    AheadIsShort(s, ahead, 0, Some(first), 0);
  }

  /*** What a search comes to ***/

  /** On page k is the first candidate of all. */
  predicate FirstCandidateOn(s: Search, k: nat) {
    Count(s.server(k)) > 0 && forall j :: 0 <= j < k ==> Count(s.server(j)) == 0
  }

  /** What is wrong with the first candidate of the first n pages, if there is one. */
  ghost predicate FirstBlame(s: Search, n: nat, blame: Option<Error>) {
    if blame.None? then forall j :: 0 <= j < n ==> Count(s.server(j)) == 0
    else exists k: nat ::
           k < n && FirstCandidateOn(s, k) && Blamed(s.verify, s.request, s.server(k).body.value[0], blame.value)
  }

  /** The search breaks off at the i-th of these candidates. */
  predicate StopsAt(s: Search, candidates: seq<Attestation>, i: nat, e: Error) {
    && i < |candidates| && AllPassedOver(s.verify, s.request, candidates, i)
    && BreaksOff(s.verify, s.request, candidates[i], e)
  }

  /** The search fails on this page, having seen so many candidates before. */
  ghost predicate FailsOn(s: Search, page: Page, seen: nat, e: Error) {
    if page.cancelled.Some? then page.cancelled.value == e
    else if page.body.Err? then page.body.error == e
    else if seen + |page.body.value| > 300 then e == TOO_MANY
    else exists i: nat :: StopsAt(s, page.body.value, i, e)
  }

  /** Where the links lead from the pages passed. */
  function Whither(s: Search, first: string, passed: seq<string>): Option<string> {
    if passed == [] then Some(first) else s.follow(passed[|passed| - 1], s.server(|passed| - 1).link)
  }

  /**
   The links lead over these pages, on which nothing decided; then the search fails: at a link that must not be
   followed, at the end of the links, at a fourth page, or on the next page.
   */
  ghost predicate FailsAfter(s: Search, first: string, passed: seq<string>, e: Error) {
    var n := |passed|;
    && Chain(s, first, passed) && n <= 3 && PassedAll(s, n, Seen(s, n))
    && match Whither(s, first, passed)
       case None => e == BAD_LINK
       case Some(url) =>
         if url == ""
         then exists blame :: FirstBlame(s, n, blame) && e == if blame.Some? then blame.value else NONE_FOUND
         else if n == 3 then e == TOO_FAR
         else FailsOn(s, s.server(n), Seen(s, n), e)
  }

  /** Candidates passed over lead on, and the first of them is remembered. */
  lemma SoftLeadsOn(s: Search, candidates: seq<Attestation>, n: nat, rest: seq<Verdict>, first: Option<Error>)
    returns (later: Option<Error>)
    requires AllPassedOver(s.verify, s.request, candidates, n)
    ensures FlatSearch(Verdicts(s, candidates) + rest, first) == FlatSearch(Verdicts(s, candidates[n..]) + rest, later)
    ensures first.Some? || n == 0 ==> later == first
    ensures first.None? && n > 0 ==> later.Some? && Blamed(s.verify, s.request, candidates[0], later.value)
  {
    later := first;
    assert candidates[0..] == candidates;
    for i := 0 to n
      invariant FlatSearch(Verdicts(s, candidates) + rest, first)
                == FlatSearch(Verdicts(s, candidates[i..]) + rest, later)
      invariant first.Some? || i == 0 ==> later == first
      invariant first.None? && i > 0 ==> later.Some? && Blamed(s.verify, s.request, candidates[0], later.value)
    {
      VerdictsUnfold(s, candidates[i..], later, rest);
      VerdictsMean(s, candidates[i]);
      assert candidates[i..][1..] == candidates[i + 1..];
      later := KeepFirst(later, Judge(s, candidates[i]).soft);
    }
  }

  /** How far the candidates are passed over. */
  lemma FirstToDecide(s: Search, candidates: seq<Attestation>) returns (n: nat)
    ensures AllPassedOver(s.verify, s.request, candidates, n)
    ensures n < |candidates| ==> !PassedOver(s.verify, s.request, candidates[n])
  {
    n := 0;
    while n < |candidates| && PassedOver(s.verify, s.request, candidates[n])
      invariant AllPassedOver(s.verify, s.request, candidates, n)
    {
      n := n + 1;
    }
  }

  lemma PassedLeadsOn(s: Search, page: Page, seen: nat, rest: seq<Verdict>, first: Option<Error>)
    returns (later: Option<Error>)
    requires seen + Count(page) <= MAX_ATTESTATIONS && Passed(s.verify, s.request, page)
    ensures FlatSearch(FromPage(s, page, seen, rest), first) == FlatSearch(rest, later)
    ensures first.Some? || Count(page) == 0 ==> later == first
    ensures first.None? && Count(page) > 0 ==>
      later.Some? && Blamed(s.verify, s.request, page.body.value[0], later.value)
  {
    var candidates := page.body.value;
    later := SoftLeadsOn(s, candidates, |candidates|, rest, first);
    assert Verdicts(s, candidates[|candidates|..]) + rest == rest;
  }

  lemma WonIsSuccess(s: Search, page: Page, seen: nat, rest: seq<Verdict>, first: Option<Error>, index: nat)
    requires seen + Count(page) <= MAX_ATTESTATIONS && Won(s.verify, s.request, page, index)
    ensures FlatSearch(FromPage(s, page, seen, rest), first).Ok?
  {
    var candidates := page.body.value;
    var later := SoftLeadsOn(s, candidates, index, rest, first);
    VerdictsUnfold(s, candidates[index..], later, rest);
    VerdictsMean(s, candidates[index]);
  }

  lemma FailsOnIsFailure(s: Search, page: Page, seen: nat, rest: seq<Verdict>, first: Option<Error>, e: Error)
    requires seen <= MAX_ATTESTATIONS && FailsOn(s, page, seen, e)
    ensures FlatSearch(FromPage(s, page, seen, rest), first) == Err(e)
  {
    if page.cancelled.None? && page.body.Ok? && seen + |page.body.value| <= 300 {
      var candidates := page.body.value;
      var i: nat :| StopsAt(s, candidates, i, e);
      var later := SoftLeadsOn(s, candidates, i, rest, first);
      VerdictsUnfold(s, candidates[i..], later, rest);
      VerdictsMean(s, candidates[i]);
    }
  }

  lemma SeenGrows(s: Search, m: nat, n: nat)
    requires m <= n
    ensures Seen(s, m) <= Seen(s, n)
  {
    for k := m to n
      invariant Seen(s, m) <= Seen(s, k)
    {
    }
  }

  lemma OnePageMore(s: Search, k: nat, blame: Option<Error>, later: Option<Error>)
    requires FirstBlame(s, k, blame)
    requires blame.Some? || Count(s.server(k)) == 0 ==> later == blame
    requires blame.None? && Count(s.server(k)) > 0 ==>
      later.Some? && Blamed(s.verify, s.request, s.server(k).body.value[0], later.value)
    ensures FirstBlame(s, k + 1, later)
  {
    if blame.None? && Count(s.server(k)) > 0 {
      assert FirstCandidateOn(s, k);
    }
  }

  /** One page on: the search from a page passed is the search from where its link leads. */
  lemma PassesOne(s: Search, ahead: Ahead, k: nat, url: string, blame: Option<Error>) returns (later: Option<Error>)
    requires LooksAhead(s, ahead) && k < MAX_PAGES && url != "" && PassedAll(s, k + 1, Seen(s, k + 1))
    requires FirstBlame(s, k, blame)
    ensures FlatSearch(ahead(k, Some(url), Seen(s, k)), blame) ==
            FlatSearch(ahead(k + 1, Onwards(s, k, url), Seen(s, k + 1)), later)
    ensures FirstBlame(s, k + 1, later)
  {
    SeenGrows(s, k, k + 1);
    var rest := PageAhead(s, ahead, k, url, Seen(s, k));
    later := PassedLeadsOn(s, s.server(k), Seen(s, k), rest, blame);
    OnePageMore(s, k, blame, later);
  }

  /** What the search has come to after the pages that are passed. */
  lemma PassesAll(s: Search, ahead: Ahead, first: string, passed: seq<string>) returns (blame: Option<Error>)
    requires LooksAhead(s, ahead) && ahead(0, Some(first), 0) == Stream(s, 0, Some(first), 0)
    requires Chain(s, first, passed) && |passed| <= MAX_PAGES && PassedAll(s, |passed|, Seen(s, |passed|))
    ensures Answer(s, first) == FlatSearch(ahead(|passed|, Whither(s, first, passed), Seen(s, |passed|)), blame)
    ensures FirstBlame(s, |passed|, blame)
  {
    blame := None;
    for k := 0 to |passed|
      invariant Answer(s, first) == FlatSearch(ahead(k, Whither(s, first, passed[..k]), Seen(s, k)), blame)
      invariant FirstBlame(s, k, blame)
    {
      SeenGrows(s, k + 1, |passed|);
      assert LedTo(s, first, passed, k);
      assert Whither(s, first, passed[..k]) == Some(passed[k]);
      assert Whither(s, first, passed[..k + 1]) == Onwards(s, k, passed[k]);
      blame := PassesOne(s, ahead, k, passed[k], blame);
    }
    assert passed[..|passed|] == passed;
  }

  /** There is only one first candidate, and only one thing wrong with it. */
  lemma OneBlame(s: Search, n: nat, blame: Option<Error>, blame': Option<Error>)
    requires FirstBlame(s, n, blame) && FirstBlame(s, n, blame')
    ensures blame == blame'
  {
    if blame.Some? && blame'.Some? {
      var k: nat :|
        k < n && FirstCandidateOn(s, k) && Blamed(s.verify, s.request, s.server(k).body.value[0], blame.value);
      var k': nat :|
        k' < n && FirstCandidateOn(s, k') && Blamed(s.verify, s.request, s.server(k').body.value[0], blame'.value);
      assert k == k';
    }
  }

  lemma FailsAfterIsFailure(s: Search, first: string, passed: seq<string>, e: Error)
    requires FailsAfter(s, first, passed, e)
    ensures Answer(s, first) == Err(e)
  {
    var n, seen := |passed|, Seen(s, |passed|);
    var ahead := StreamLooksAhead(s, 0, Some(first), 0);
    var blame := PassesAll(s, ahead, first, passed);
    match Whither(s, first, passed)
    case None => BadLinkStops(s, ahead, n, seen, blame);
    case Some(url) =>
      if url == "" || n == 3 {
        SearchEnds(s, ahead, n, url, seen, blame);
        if url == "" {
          var own :| FirstBlame(s, n, own) && e == if own.Some? then own.value else NONE_FOUND;
          OneBlame(s, n, blame, own);
        }
      } else {
        var rest := PageAhead(s, ahead, n, url, seen);
        FailsOnIsFailure(s, s.server(n), seen, rest, blame, e);
      }
  }

  /** Whoever has a transcript to show has succeeded. */
  lemma TranscriptMeansSuccess(s: Search, first: string, requested: seq<string>, index: nat)
    requires Chain(s, first, requested) && WonOnPage(s, |requested|, index)
    ensures Answer(s, first).Ok?
  {
    var ahead := StreamLooksAhead(s, 0, Some(first), 0);
    var n := |requested| - 1;
    var passed := requested[..n];
    ChainShortens(s, first, requested, n);
    var blame := PassesAll(s, ahead, first, passed);
    assert LedTo(s, first, requested, n);
    var rest := PageAhead(s, ahead, n, requested[n], Seen(s, n));
    WonIsSuccess(s, s.server(n), Seen(s, n), rest, blame, index);
  }

  /** There is something to blame on the first n pages, or nothing at all on them. */
  lemma SomeBlame(s: Search, n: nat) returns (blame: Option<Error>)
    requires forall k :: 0 <= k < n ==> Passed(s.verify, s.request, s.server(k))
    ensures FirstBlame(s, n, blame)
  {
    blame := None;
    for k := 0 to n
      invariant FirstBlame(s, k, blame)
    {
      var later := blame;
      if blame.None? && Count(s.server(k)) > 0 {
        assert PassedOver(s.verify, s.request, s.server(k).body.value[0]);
        VerdictsMean(s, s.server(k).body.value[0]);
        later := Some(Judge(s, s.server(k).body.value[0]).soft);
      }
      OnePageMore(s, k, blame, later);
      blame := later;
    }
  }

  /** What one more page comes to: it is passed, it wins, or the search fails on it. */
  lemma PageDecides(s: Search, page: Page, seen: nat) returns (index: nat, r: Option<Result<(), Error>>)
    ensures match r
            case None => seen + Count(page) <= 300 && Passed(s.verify, s.request, page)
            case Some(Ok(_)) => seen + Count(page) <= 300 && Won(s.verify, s.request, page, index)
            case Some(Err(e)) => FailsOn(s, page, seen, e)
  {
    index := 0;
    if page.cancelled.Some? {
      return index, Some(Err(page.cancelled.value));
    }
    if page.body.Err? {
      return index, Some(Err(page.body.error));
    }
    var candidates := page.body.value;
    if seen + |candidates| > 300 {
      return index, Some(Err(TOO_MANY));
    }
    index := FirstToDecide(s, candidates);
    if index == |candidates| {
      return index, None;
    }
    VerdictsMean(s, candidates[index]);
    if Endorsed(s.verify, s.request, candidates[index]) {
      return index, Some(Ok(()));
    }
    var e := Judge(s, candidates[index]).hard;
    assert StopsAt(s, candidates, index, e);
    return index, Some(Err(e));
  }

  /** Every search wins on some page, or fails after some. */
  lemma SearchComesToAnEnd(s: Search, first: string)
    returns (requested: seq<string>, index: nat, r: Result<(), Error>)
    ensures r.Ok? ==> Chain(s, first, requested) && WonOnPage(s, |requested|, index)
    ensures r.Err? ==> FailsAfter(s, first, requested, r.error)
  {
    requested, index := [], 0;
    while true
      invariant |requested| <= 3 && Chain(s, first, requested) && PassedAll(s, |requested|, Seen(s, |requested|))
      decreases 3 - |requested|
    {
      var n := |requested|;
      if Whither(s, first, requested).None? {
        return requested, index, Err(BAD_LINK);
      }
      var url := Whither(s, first, requested).value;
      if url == "" {
        var blame := SomeBlame(s, n);
        return requested, index, Err(if blame.Some? then blame.value else NONE_FOUND);
      }
      if n == 3 {
        return requested, index, Err(TOO_FAR);
      }
      var decided;
      index, decided := PageDecides(s, s.server(n), Seen(s, n));
      if decided.Some? && decided.value.Err? {
        return requested, index, decided.value;
      }
      ChainGrows(s, first, requested, url);
      requested := requested + [url];
      if decided.Some? {
        return requested, index, Ok(());
      }
    }
  }

  /**
   The search succeeds exactly if following the links leads, within the limits, to a page with a candidate that the
   verifier accepts for exactly this request, and everything before it failed only on its own account; and it fails with
   an error exactly if that is the first thing to stop it, or the first thing that was wrong when nothing did.
   */
  lemma SearchIsDecided(s: Search, first: string)
    ensures Answer(s, first).Ok? <==> Succeeds(s, first)
    ensures forall e :: Answer(s, first) == Err(e) <==> FailsWith(s, first, e)
  {
    var requested, index, r := SearchComesToAnEnd(s, first);
    if r.Ok? {
      TranscriptMeansSuccess(s, first, requested, index);
      TranscriptIsAccepted(s, |requested|, index);
    } else {
      FailsAfterIsFailure(s, first, requested, r.error);
    }
    forall requested, index |
      Chain(s, first, requested) && Accepted(s.verify, Transcript(s, |requested|, index))
      ensures Answer(s, first).Ok?
    {
      TranscriptIsAccepted(s, |requested|, index);
      TranscriptMeansSuccess(s, first, requested, index);
    }
    forall passed, e | FailsAfter(s, first, passed, e) ensures Answer(s, first) == Err(e) {
      FailsAfterIsFailure(s, first, passed, e);
    }
  }
}

/** Picking the one asset of a release that this platform needs. */
module Releases {
  import opened Basics
  import opened Plans
  import opened Versions
  import opened Names

  /** An asset as the release metadata list it; `urlOk` says that its download URL is acceptable. */
  datatype Listing = Listing(name: string, size: int, urlOk: bool, digest: string)

  datatype Choice = Choice(asset: Asset, size: nat)

  predicate Usable(l: Listing) {
    0 < l.size <= MAX_ARCHIVE_BYTES && l.urlOk && IsDigest(l.digest)
  }

  /** Exactly the i-th listing has the name. */
  ghost predicate OnlyOne(listings: seq<Listing>, expected: string, i: nat) {
    && i < |listings| && listings[i].name == expected
    && forall j :: 0 <= j < |listings| && j != i ==> listings[j].name != expected
  }

  /** The asset that a listing describes. */
  ghost predicate Describes(l: Listing, choice: Choice) {
    && choice.asset.name == l.name && choice.size == l.size
    && |choice.asset.digest| == DIGEST_BYTES && DIGEST_PREFIX + HexEncode(choice.asset.digest) == l.digest
  }

  /** There is only one only listing, and it describes only one asset. */
  lemma OnlyOneChoice(listings: seq<Listing>, expected: string, i: nat, choice: Choice, j: nat, choice': Choice)
    requires OnlyOne(listings, expected, i) && Describes(listings[i], choice)
    requires OnlyOne(listings, expected, j) && Describes(listings[j], choice')
    ensures choice == choice'
  {
    assert i == j;
    var n := |DIGEST_PREFIX|;
    assert listings[i].digest[n..] == HexEncode(choice.asset.digest);
    assert listings[i].digest[n..] == HexEncode(choice'.asset.digest);
    DecodeEncode(choice.asset.digest);
    DecodeEncode(choice'.asset.digest);
  }

  /*** The release ***/

  /** The metadata of a release, as far as they matter; `pageOk` says that the URL of its page is acceptable. */
  datatype Metadata = Metadata(
    draft: bool, prerelease: bool, tagName: string, published: bool, pageOk: bool, listings: seq<Listing>)

  predicate Published(m: Metadata) {
    !m.draft && !m.prerelease && IsStable(m.tagName) && m.published && m.pageOk
  }

  /** A published release with this stable tag lists one asset of that name, and it is this one. */
  ghost predicate Offers(response: Option<Metadata>, expected: string, version: string, choice: Choice) {
    && response.Some? && Published(response.value) && response.value.tagName == version
    && var listings := response.value.listings;
    exists i: nat :: OnlyOne(listings, expected, i) && Usable(listings[i]) && Describes(listings[i], choice)
  }

  /** A release offers at most one asset of a name. */
  lemma OffersOne(
    response: Option<Metadata>, expected: string, version: string, choice: Choice, version': string, choice': Choice)
    requires Offers(response, expected, version, choice) && Offers(response, expected, version', choice')
    ensures version == version' && choice == choice'
  {
    var listings := response.value.listings;
    var i: nat :| OnlyOne(listings, expected, i) && Describes(listings[i], choice);
    var j: nat :| OnlyOne(listings, expected, j) && Describes(listings[j], choice');
    OnlyOneChoice(listings, expected, i, choice, j, choice');
  }

  /** A size from one byte to 256 MiB, an acceptable URL, and sha256 with sixty-four lowercase hexadecimal digits. */
  predicate InOrder(l: Listing) {
    && 0 < l.size <= 268435456 && l.urlOk
    && |l.digest| == 71 && l.digest[..7] == "sha256:"
    && forall i :: 7 <= i < 71 ==> '0' <= l.digest[i] <= '9' || 'a' <= l.digest[i] <= 'f'
  }

  lemma UsableMeansInOrder(l: Listing)
    ensures Usable(l) <==> InOrder(l)
  {
    if IsDigest(l.digest) {
      assert forall i :: 7 <= i < 71 ==> l.digest[i] == l.digest[7..][i - 7];
    }
    if InOrder(l) {
      assert forall i :: 0 <= i < 64 ==> l.digest[7..][i] == l.digest[i + 7];
    }
  }

  /** Chooses the only asset of that name, if it is usable; no other listing has a say in it. */
  method SelectAsset(listings: seq<Listing>, expected: string) returns (choice: Option<Choice>)
    requires expected != ""
    ensures choice.Some? <==> exists i: nat :: OnlyOne(listings, expected, i) && Usable(listings[i])
    ensures choice.Some? <==> exists i: nat :: OnlyOne(listings, expected, i) && InOrder(listings[i])
    ensures choice.Some? ==> exists i: nat :: OnlyOne(listings, expected, i) && Describes(listings[i], choice.value)
  {
    choice := None;
    ghost var at: nat := 0;
    forall l {
      UsableMeansInOrder(l);
    }
    for i := 0 to |listings|
      invariant choice.None? ==> forall j :: 0 <= j < i ==> listings[j].name != expected
      invariant choice.Some? ==>
        && at < i && listings[at].name == expected && Usable(listings[at]) && Describes(listings[at], choice.value)
        && forall j :: 0 <= j < i && j != at ==> listings[j].name != expected
    {
      var l := listings[i];
      if l.name != expected {
        continue;
      }
      if choice.Some? {
        assert !OnlyOne(listings, expected, at);
        return None;
      }
      if l.size <= 0 || l.size > MAX_ARCHIVE_BYTES || !l.urlOk {
        return None;
      }
      var digest := ParseAssetDigest(l.digest);
      if digest.None? {
        return None;
      }
      choice, at := Some(Choice(Asset(l.name, digest.value), l.size)), i;
    }
    assert choice.Some? ==> OnlyOne(listings, expected, at);
  }

  /** What the answer of the server offers, if it offers anything. There is no response when the request failed. */
  method FetchRelease(response: Option<Metadata>, expected: string) returns (r: Option<(string, Choice)>)
    requires expected != ""
    ensures r.Some? ==> Offers(response, expected, r.value.0, r.value.1)
    ensures r.None? ==> forall version, choice :: !Offers(response, expected, version, choice)
    ensures r.Some? <==>
      && response.Some?
      && var m := response.value;
         && !m.draft && !m.prerelease && IsStable(m.tagName) && m.published && m.pageOk
         && exists i: nat :: OnlyOne(m.listings, expected, i) && InOrder(m.listings[i])
    ensures r.Some? ==> r.value.0 == response.value.tagName
  {
    if response.None? {
      return None;
    }
    var m := response.value;
    if m.draft || m.prerelease || !IsStable(m.tagName) || !m.published || !m.pageOk {
      return None;
    }
    var choice := SelectAsset(m.listings, expected);
    if choice.None? {
      return None;
    }
    ghost var i: nat :| OnlyOne(m.listings, expected, i) && Usable(m.listings[i]);
    ghost var j: nat :| OnlyOne(m.listings, expected, j) && Describes(m.listings[j], choice.value);
    assert i == j;
    return Some((m.tagName, choice.value));
  }

  /** The same for one tag: what another release offers does not count. */
  method FetchReleaseByTag(response: Option<Metadata>, version: string, expected: string)
    returns (r: Option<(string, Choice)>)
    requires expected != ""
    ensures r.Some? ==> r.value.0 == version && Offers(response, expected, version, r.value.1)
    ensures r.None? ==> forall choice :: !Offers(response, expected, version, choice)
  {
    r := FetchRelease(response, expected);
    if r.Some? && r.value.0 != version {
      return None;
    }
  }
}

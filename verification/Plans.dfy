/** Updaters, releases and plans: what a check decides and what an install demands of it. */
module Plans {
  import opened Basics
  import opened Text
  import opened Versions

  /** One configured program. `identity` stands for the random binding drawn when it was made. */
  datatype Updater = Updater(
    identity: nat, owner: string, repository: string, currentVersion: string,
    allowDowngrade: bool, workflow: string)

  /** What was proved about a release asset when its attestation was accepted. */
  datatype Record = Record(
    owner: string, repository: string, workflow: string, version: string, assetName: string, digest: Bytes)

  /** The question put to the attestation verifier. */
  datatype Request = Request(
    signerIdentity: string, sourceRepository: string, sourceOwner: string, assetName: string, digest: Bytes)

  datatype Asset = Asset(name: string, digest: Bytes)

  datatype Plan = Plan(
    updater: Updater, availableVersion: string, comparable: bool, updateAvailable: bool, targeted: bool,
    assetName: string, digest: Bytes, provenance: Option<Record>, fingerprint: Bytes)

  function NewRecord(u: Updater, version: string, asset: Asset): Record {
    Record(u.owner, u.repository, u.workflow, version, asset.name, asset.digest)
  }

  /** What the verifier is asked, so that the record may be made. */
  function RequestOf(r: Record): Request {
    var source := "https://github.com/" + r.owner + "/" + r.repository;
    Request(source + "/" + r.workflow + "@refs/tags/" + r.version, source, "https://github.com/" + r.owner,
            r.assetName, r.digest)
  }

  function RequestFor(u: Updater, version: string, asset: Asset): Request {
    RequestOf(NewRecord(u, version, asset))
  }

  predicate Matches(r: Record, u: Updater, plan: Plan) {
    && r.owner == u.owner
    && r.repository == u.repository
    && r.workflow == u.workflow
    && r.version == plan.availableVersion
    && r.assetName == plan.assetName
    && r.digest == plan.digest
  }

  /** A release tag reaches this point only after the metadata reader found it stable. */
  function BuildPlan(u: Updater, version: string, asset: Asset, targeted: bool, fingerprint: Bytes): Plan
    requires IsStable(version)
  {
    var comparable := IsStable(u.currentVersion);
    Plan(u, version, comparable, comparable && Compare(u.currentVersion, version) < 0, targeted,
         asset.name, asset.digest, if u.workflow != "" then Some(NewRecord(u, version, asset)) else None,
         fingerprint)
  }

  /** The gates an install passes before it touches anything. */
  predicate Admits(u: Updater, plan: Plan) {
    && plan.updater == u
    && IsStable(u.currentVersion) && plan.comparable
    && IsStable(plan.availableVersion)
    && (|| (plan.updateAvailable && Compare(u.currentVersion, plan.availableVersion) < 0)
        || (plan.targeted && u.allowDowngrade))
    && (u.workflow != "" ==> plan.provenance.Some? && Matches(plan.provenance.value, u, plan))
  }

  /*** What the gates let through ***/

  /** The plan for this release asset, field by field; only the executable's fingerprint is left open. */
  predicate PlansFor(plan: Plan, u: Updater, version: string, asset: Asset, targeted: bool) {
    && IsStable(version) && plan.updater == u && plan.availableVersion == version && plan.targeted == targeted
    && plan.comparable == IsStable(u.currentVersion)
    && plan.updateAvailable == (IsStable(u.currentVersion) && Before(Fields(u.currentVersion), Fields(version)))
    && plan.assetName == asset.name && plan.digest == asset.digest
    && plan.provenance ==
       if u.workflow == "" then None
       else Some(Record(u.owner, u.repository, u.workflow, version, asset.name, asset.digest))
  }

  /** What a check builds is the plan for that release asset. */
  lemma BuiltPlansAreRight(plan: Plan, u: Updater, version: string, asset: Asset, targeted: bool)
    requires IsStable(version)
    ensures PlansFor(plan, u, version, asset, targeted) <==>
            plan == BuildPlan(u, version, asset, targeted, plan.fingerprint)
  {
    if IsStable(u.currentVersion) {
      CompareIsPrecedence(u.currentVersion, version);
    }
  }

  /** The plan is one that a check has made. */
  predicate Built(plan: Plan) {
    IsStable(plan.availableVersion)
    && plan == BuildPlan(plan.updater, plan.availableVersion, Asset(plan.assetName, plan.digest), plan.targeted,
                         plan.fingerprint)
  }

  /** The plan is the updater's own and leads up to a stable release, or to another one asked for and allowed. */
  predicate Permitted(u: Updater, plan: Plan) {
    && plan.updater == u && IsStable(u.currentVersion) && IsStable(plan.availableVersion)
    && (|| Before(Fields(u.currentVersion), Fields(plan.availableVersion))
        || (plan.targeted && u.allowDowngrade))
  }

  /** The gates let exactly the permitted plans through, of those that checks make. */
  lemma GatesDecide(u: Updater, plan: Plan)
    requires Built(plan)
    ensures Admits(u, plan) <==> Permitted(u, plan)
  {
    if IsStable(u.currentVersion) {
      CompareIsPrecedence(u.currentVersion, plan.availableVersion);
    }
  }

  /*** What a request pins ***/

  /** The request as it is sent: the workflow at the release's tag, the repository, the owner, the asset. */
  predicate SpelledOut(r: Request, u: Updater, version: string, asset: Asset) {
    && r.signerIdentity ==
         "https://github.com/" + u.owner + "/" + u.repository + "/" + u.workflow + "@refs/tags/" + version
    && r.sourceRepository == "https://github.com/" + u.owner + "/" + u.repository
    && r.sourceOwner == "https://github.com/" + u.owner
    && r.assetName == asset.name && r.digest == asset.digest
  }

  lemma RequestsAreSpelled(u: Updater, version: string, asset: Asset)
    ensures SpelledOut(RequestFor(u, version, asset), u, version, asset)
  {
  }

  /** A string is cut at its last separator in one way only. */
  lemma CutAtLast(a: string, x: string, b: string, y: string, sep: char)
    requires a + [sep] + x == b + [sep] + y && sep !in x && sep !in y
    ensures a == b && x == y
  {
    var s := a + [sep] + x;
    assert s[|a|] == sep && s[|b|] == sep;
    assert forall i :: |a| < i < |s| ==> s[i] == x[i - |a| - 1];
    assert forall i :: |b| < i < |s| ==> s[i] == y[i - |b| - 1];
    assert |a| == |b|;
    assert s[..|a|] == a && s[..|b|] == b && s[|a| + 1..] == x && s[|b| + 1..] == y;
  }

  lemma StableHasNoAt(version: string)
    requires IsStable(version)
    ensures '@' !in version
  {
    JoinSplit(version[1..], '.');
    JoinHasNo(Split(version[1..], '.'), '.', '@');
    assert version == [version[0]] + version[1..];
  }

  lemma SamePrefix(prefix: string, x: string, y: string)
    requires prefix + x == prefix + y
    ensures x == y
  {
    assert (prefix + x)[|prefix|..] == x && (prefix + y)[|prefix|..] == y;
  }

  /** Equal requests are about the same owner, repository, workflow, version, asset name and digest. */
  lemma RequestPinsRelease(u: Updater, version: string, asset: Asset, u': Updater, version': string, asset': Asset)
    requires IsStable(version) && IsStable(version')
    requires RequestFor(u, version, asset) == RequestFor(u', version', asset')
    ensures NewRecord(u, version, asset) == NewRecord(u', version', asset')
  {
    var r, r' := RequestFor(u, version, asset), RequestFor(u', version', asset');
    SamePrefix("https://github.com/", u.owner, u'.owner);
    SamePrefix("https://github.com/" + u.owner + "/", u.repository, u'.repository);
    var tag, tag' := "refs/tags/" + version, "refs/tags/" + version';
    var stem := r.sourceRepository + "/";
    assert r.signerIdentity == (stem + u.workflow) + ['@'] + tag;
    assert r'.signerIdentity == (stem + u'.workflow) + ['@'] + tag';
    StableHasNoAt(version);
    StableHasNoAt(version');
    CutAtLast(stem + u.workflow, tag, stem + u'.workflow, tag', '@');
    SamePrefix(stem, u.workflow, u'.workflow);
    SamePrefix("refs/tags/", version, version');
  }
}

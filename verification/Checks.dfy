/** Updater.Check and CheckVersion: from the release to a plan; and Apply on what they have found. */
module Checks {
  import opened Basics
  import opened Plans
  import opened Versions
  import opened Releases
  import opened Machine
  import opened Preservation
  import opened Unpacking
  import opened Downloads
  import opened Worlds
  import opened Installs
  import opened Staging
  import Attestations
  import Pagination

  /**
   What a check is given and what it meets: the program's command and platform, the version asked for (none means the
   latest release), the server's answer, the base name of the running executable, and for the attestations how URLs
   are read, the first page for a digest (none if it cannot be made) and the pages that the server sends in turn.
   */
  datatype Inquiry = Inquiry(
    command: string, goos: string, goarch: string, wanted: Option<string>, response: Option<Metadata>,
    program: string, lib: Pagination.Library, firstPage: Bytes -> Option<string>, server: nat -> Attestations.Page)
  {
    function Names(): (names: Option<(string, string)>)
      ensures names.Some? ==> names.value.0 != ""
    {
      ExpectedNames(command, goos, goarch)
    }

    /** This is the program's name on its platform. */
    predicate Runs(name: string) { ProgramFor(command, goos, goarch, name) }
  }

  /** The release that was asked for offers this asset. */
  ghost predicate Found(inquiry: Inquiry, version: string, choice: Choice) {
    && AssetFor(inquiry.command, inquiry.goos, inquiry.goarch, choice.asset.name)
    && (inquiry.wanted.Some? ==> IsStable(inquiry.wanted.value) && inquiry.wanted.value == version)
    && Offers(inquiry.response, choice.asset.name, version, choice)
  }

  /** The attestation search that this inquiry makes for an asset. */
  function SearchOf(
    verify: Attestations.Verifier, u: Updater, inquiry: Inquiry, version: string, asset: Asset): Attestations.Search
  {
    Attestations.SearchFor(inquiry.lib, inquiry.server, verify, NewRecord(u, version, asset))
  }

  /** Without a policy nothing is asked; with one, the search for an attestation of exactly this asset succeeds. */
  ghost predicate Attested(verify: Attestations.Verifier, u: Updater, inquiry: Inquiry, version: string, asset: Asset) {
    u.workflow != "" ==>
      && inquiry.firstPage(asset.digest).Some?
      && Attestations.Succeeds(
           SearchOf(verify, u, inquiry, version, asset), inquiry.firstPage(asset.digest).value)
  }

  /** The transcript of this very search, which ends in an accepted bundle. */
  ghost predicate Witness(
    c: Config, u: Updater, inquiry: Inquiry, version: string, asset: Asset, x: Attestations.Evidence)
  {
    && Vouched(c, Some(x), u, version, asset) && SpelledOut(x.request, u, version, asset)
    && inquiry.firstPage(asset.digest).Some?
    && Attestations.FromSearch(
         SearchOf(c.verify, u, inquiry, version, asset), inquiry.firstPage(asset.digest).value, x)
  }

  /** With a policy, such a transcript is on file for the plan's asset. */
  ghost predicate Witnessed(c: Config, s: State, u: Updater, inquiry: Inquiry, plan: Plan) {
    u.workflow != "" ==>
      exists x :: x in s.verified
                  && Witness(c, u, inquiry, plan.availableVersion, Asset(plan.assetName, plan.digest), x)
  }

  /** The release asset that this plan is for. */
  ghost predicate Sourced(verify: Attestations.Verifier, u: Updater, inquiry: Inquiry, plan: Plan) {
    exists version, choice ::
      && Found(inquiry, version, choice) && Attested(verify, u, inquiry, version, choice.asset)
      && PlansFor(plan, u, version, choice.asset, inquiry.wanted.Some?)
  }

  /** The executable is the program in question, and this is its hash. */
  predicate Printed(c: Config, d: Disk, inquiry: Inquiry, fingerprint: Bytes) {
    inquiry.Runs(inquiry.program) && Fits(c, d, fingerprint)
  }

  /** All that a check promises of its plan. */
  ghost predicate Planned(c: Config, d: Disk, u: Updater, inquiry: Inquiry, plan: Plan) {
    Sourced(c.verify, u, inquiry, plan) && Printed(c, d, inquiry, plan.fingerprint)
  }

  /** There is at most one release asset to plan for. */
  lemma SourcedOne(
    verify: Attestations.Verifier, u: Updater, inquiry: Inquiry, plan: Plan, version: string, choice: Choice)
    requires Sourced(verify, u, inquiry, plan) && Found(inquiry, version, choice)
    ensures Attested(verify, u, inquiry, version, choice.asset)
  {
    var v, ch :| Found(inquiry, v, ch) && Attested(verify, u, inquiry, v, ch.asset);
    OffersOne(inquiry.response, choice.asset.name, version, choice, v, ch);
  }

  /*** buildPlan ***/

  /** The record of the accepted attestation, and the evidence for it. */
  method Attest(c: Config, u: Updater, inquiry: Inquiry, version: string, asset: Asset)
    returns (ok: bool, record: Option<Record>, ghost evidence: Option<Attestations.Evidence>)
    requires u.workflow != ""
    ensures ok == Attested(c.verify, u, inquiry, version, asset)
    ensures ok ==> record == Some(NewRecord(u, version, asset))
                   && evidence.Some? && Witness(c, u, inquiry, version, asset, evidence.value)
  {
    var first := inquiry.firstPage(asset.digest);
    if first.None? {
      return false, None, None;
    }
    var r, requested;
    ghost var x;
    r, requested, x :=
      Attestations.VerifyAttestation(inquiry.lib, inquiry.server, c.verify, first.value, u, version, asset);
    RequestsAreSpelled(u, version, asset);
    return r.Ok?, if r.Ok? then Some(r.value) else None, Some(x);
  }

  /** Puts on record that the plan has been made. */
  ghost method PutOnRecord(
    w: World, u: Updater, version: string, asset: Asset, targeted: bool, evidence: Option<Attestations.Evidence>)
    requires w.Valid() && IsStable(version) && Hashable(w.disk)
    requires if u.workflow == "" then evidence.None? else Vouched(w.c, evidence, u, version, asset)
    modifies w`story
    ensures w.Valid() && Continues(old(w.story), w.story)
    ensures BuildPlan(u, version, asset, targeted, w.c.hash(w.disk.At(Target).content)) in w.Now().plans
    ensures evidence.Some? ==> evidence.value in w.Now().verified
  {
    var a := Checked(u, version, asset, targeted, evidence);
    w.Record(a, AddPlan(w.c, w.Now(), a));
  }

  /** Hashes the program as it is now, and plans to replace it. */
  method PlanFor(
    w: World, u: Updater, version: string, asset: Asset, targeted: bool, record: Option<Record>,
    ghost evidence: Option<Attestations.Evidence>)
    returns (plan: Option<Plan>)
    requires w.Valid() && IsStable(version)
    requires if u.workflow == "" then record.None? && evidence.None?
             else record == Some(NewRecord(u, version, asset)) && Vouched(w.c, evidence, u, version, asset)
    modifies w
    ensures w.Valid() && Continues(old(w.story), w.story) && w.disk == old(w.disk)
    ensures plan.Some? ==>
      && plan.value in w.Now().plans && Fits(w.c, w.disk, plan.value.fingerprint)
      && (evidence.Some? ==> evidence.value in w.Now().verified)
      && PlansFor(plan.value, u, version, asset, targeted)
    ensures w.mishaps >= old(w.mishaps) && (plan.None? ==> w.mishaps > old(w.mishaps) || !Hashable(w.disk))
  {
    var hashed := HashTarget(w);
    if hashed.None? {
      return None;
    }
    var patient := w.Luck();
    if !patient {
      return None;
    }
    var comparable := IsStable(u.currentVersion);
    var available := comparable && Compare(u.currentVersion, version) < 0;
    PutOnRecord(w, u, version, asset, targeted, evidence);
    plan :=
      Some(Plan(u, version, comparable, available, targeted, asset.name, asset.digest, record, hashed.value.0));
    BuiltPlansAreRight(plan.value, u, version, asset, targeted);
  }

  /** Asks for attestations if there is a policy. */
  method AttestIfAsked(c: Config, u: Updater, inquiry: Inquiry, version: string, asset: Asset)
    returns (ok: bool, record: Option<Record>, ghost evidence: Option<Attestations.Evidence>)
    ensures ok == Attested(c.verify, u, inquiry, version, asset)
    ensures ok ==>
      if u.workflow == "" then record.None? && evidence.None?
      else record == Some(NewRecord(u, version, asset))
           && evidence.Some? && Witness(c, u, inquiry, version, asset, evidence.value)
  {
    ok, record, evidence := true, None, None;
    if u.workflow != "" {
      ok, record, evidence := Attest(c, u, inquiry, version, asset);
    }
  }

  /** Finds the executable, which must be called like the program, and makes the plan; others run meanwhile. */
  method FindAndPlan(
    w: World, u: Updater, inquiry: Inquiry, version: string, asset: Asset, record: Option<Record>,
    ghost evidence: Option<Attestations.Evidence>)
    returns (plan: Option<Plan>)
    requires w.Valid() && IsStable(version) && inquiry.Names().Some?
    requires if u.workflow == "" then record.None? && evidence.None?
             else record == Some(NewRecord(u, version, asset)) && Vouched(w.c, evidence, u, version, asset)
    modifies w
    ensures w.Valid() && Continues(old(w.story), w.story)
    ensures plan.Some? ==>
      && plan.value in w.Now().plans && Printed(w.c, w.disk, inquiry, plan.value.fingerprint)
      && (evidence.Some? ==> evidence.value in w.Now().verified)
      && PlansFor(plan.value, u, version, asset, inquiry.wanted.Some?)
    ensures w.mishaps >= old(w.mishaps)
    ensures plan.None? ==> w.mishaps > old(w.mishaps) || !inquiry.Runs(inquiry.program) || !Hashable(w.disk)
  {
    ExpectedNamesAreRight(inquiry.command, inquiry.goos, inquiry.goarch);
    w.LetAnybodyRun();
    var ok := w.Luck();
    if !ok || !w.disk.Has(Target) || inquiry.program != inquiry.Names().value.1 {
      return None;
    }
    w.LetAnybodyRun();
    plan := PlanFor(w, u, version, asset, inquiry.wanted.Some?, record, evidence);
  }

  /** Asks for attestations, and then finds the executable and makes the plan. */
  method MakePlan(w: World, u: Updater, inquiry: Inquiry, version: string, asset: Asset) returns (plan: Option<Plan>)
    requires w.Valid() && IsStable(version) && inquiry.Names().Some?
    modifies w
    ensures w.Valid() && Continues(old(w.story), w.story)
    ensures plan.Some? ==>
      && Attested(w.c.verify, u, inquiry, version, asset)
      && plan.value in w.Now().plans && Printed(w.c, w.disk, inquiry, plan.value.fingerprint)
      && Witnessed(w.c, w.Now(), u, inquiry, plan.value)
      && PlansFor(plan.value, u, version, asset, inquiry.wanted.Some?)
    ensures w.mishaps >= old(w.mishaps)
    ensures plan.None? ==>
      || w.mishaps > old(w.mishaps) || !Attested(w.c.verify, u, inquiry, version, asset)
      || !inquiry.Runs(inquiry.program) || !Hashable(w.disk)
  {
    var ok, record;
    ghost var evidence;
    ok, record, evidence := AttestIfAsked(w.c, u, inquiry, version, asset);
    if !ok {
      return None;
    }
    plan := FindAndPlan(w, u, inquiry, version, asset, record, evidence);
    assert Asset(asset.name, asset.digest) == asset;
  }

  /*** Check and CheckVersion ***/

  /** Asks for the latest release, or for that of the version wanted. */
  method Fetch(inquiry: Inquiry) returns (found: Option<(string, Choice)>)
    ensures found.Some? ==> Found(inquiry, found.value.0, found.value.1)
    ensures found.None? ==> forall version, choice :: !Found(inquiry, version, choice)
  {
    var names := inquiry.Names();
    ExpectedNamesAreRight(inquiry.command, inquiry.goos, inquiry.goarch);
    if names.None? {
      return None;
    }
    match inquiry.wanted
    case None => found := FetchRelease(inquiry.response, names.value.0);
    case Some(version) =>
      if !IsStable(version) {
        return None;
      }
      found := FetchReleaseByTag(inquiry.response, version, names.value.0);
  }

  /**
   Makes a plan exactly when the release that was asked for offers the asset that this platform needs, the policy's
   attestation is found, and the executable is the program in question; unless something goes wrong. The plan is on
   record, and made for the executable as it is in that very moment.
   */
  method Check(w: World, u: Updater, inquiry: Inquiry) returns (plan: Option<Plan>)
    requires w.Valid()
    modifies w
    ensures w.Valid() && Continues(old(w.story), w.story)
    ensures plan.Some? ==>
      && plan.value in w.Now().plans && Planned(w.c, w.disk, u, inquiry, plan.value)
      && Witnessed(w.c, w.Now(), u, inquiry, plan.value)
    ensures w.mishaps >= old(w.mishaps)
    ensures plan.None? ==> w.mishaps > old(w.mishaps) || forall p :: !Planned(w.c, w.disk, u, inquiry, p)
  {
    var found := Fetch(inquiry);
    if found.None? {
      return None;
    }
    var (version, choice) := found.value;
    plan := MakePlan(w, u, inquiry, version, choice.asset);
    if plan.None? {
      forall p | Sourced(w.c.verify, u, inquiry, p) ensures Attested(w.c.verify, u, inquiry, version, choice.asset) {
        SourcedOne(w.c.verify, u, inquiry, p, version, choice);
      }
    }
  }

  /*** Check, then Apply ***/

  /** Plans and transcripts stay on record. */
  lemma RecordsStay(c: Config, run: seq<State>, i: nat, j: nat)
    requires Run(c, run) && i <= j < |run|
    ensures run[i].plans <= run[j].plans && run[i].verified <= run[j].verified
  {
    for k := i to j
      invariant run[i].plans <= run[k].plans && run[i].verified <= run[k].verified
    {
      var a := StepAt(c, run, k);
      RecordsGrow(c, run[k], a, run[k + 1]);
    }
  }

  lemma RecordsGrow(c: Config, s: State, a: Action, s': State)
    requires Next(c, s, a) == Some(s')
    ensures s.plans <= s'.plans && s.verified <= s'.verified
  {
    if a.Succeed? {
      SucceedingKeepsRecords(c, s, a.pid, a.input, s');
    }
  }

  lemma SucceedingKeepsRecords(c: Config, s: State, p: nat, input: Input, s': State)
    requires p in s.procs && Succeeding(c, s, p, input) == Some(s')
    ensures s'.plans == s.plans && s'.verified == s.verified
  {
  }

  lemma StoryKeepsRecords(before: Story, after: Story)
    requires Continues(before, after)
    ensures before.now.plans <= after.now.plans && before.now.verified <= after.now.verified
  {
    assert before.now == after.run[|before.run| - 1];
    RecordsStay(after.c, after.run, |before.run| - 1, |after.run| - 1);
  }

  lemma WitnessStays(before: Story, after: Story, u: Updater, inquiry: Inquiry, plan: Plan)
    requires Continues(before, after) && Witnessed(before.c, before.now, u, inquiry, plan)
    ensures Witnessed(after.c, after.now, u, inquiry, plan)
  {
    StoryKeepsRecords(before, after);
  }

  /** Others run, and the plan stays on record. */
  method Wait(w: World, ghost plan: Plan)
    requires w.Valid() && plan in w.Now().plans
    modifies w`disk, w`owner, w`born, w`story
    ensures w.Valid() && Continues(old(w.story), w.story) && plan in w.Now().plans
  {
    ghost var before := w.story;
    w.LetAnybodyRun();
    StoryKeepsRecords(before, w.story);
  }

  /** What an install will need besides its plan. */
  datatype Supplies = Supplies(tools: Tools, cancelled: nat -> bool, response: Response)

  function OrderOf(plan: Plan, supplies: Supplies): Order {
    Order(plan, supplies.tools, supplies.cancelled, supplies.response)
  }

  lemma PlanFitsPlatform(verify: Attestations.Verifier, u: Updater, inquiry: Inquiry, plan: Plan)
    requires Sourced(verify, u, inquiry, plan)
    ensures Supported(inquiry.goos, inquiry.goarch)
    ensures Fitting(if inquiry.goos == "windows" then Windows else Unix, plan.assetName)
  {
    ExpectedNamesTellTheFormat(inquiry.command, inquiry.goos, inquiry.goarch, plan.assetName);
  }

  /** The installs of c are those of this program on this platform. */
  predicate Serves(c: Config, inquiry: Inquiry) {
    && c.platform == (if inquiry.goos == "windows" then Windows else Unix)
    && (Supported(inquiry.goos, inquiry.goarch) ==> inquiry.Runs(c.member))
  }

  /** The archive has the plan's digest, and this is its member of the program's name. */
  predicate Contains(c: Config, tools: Tools, plan: Plan, archive: Bytes, content: Bytes) {
    c.hash(archive) == plan.digest && Member(tools, plan.assetName, archive, c.member) == Some(content)
  }

  ghost predicate OutOfArchive(c: Config, tools: Tools, inquiry: Inquiry, plan: Plan, content: Bytes) {
    inquiry.Runs(c.member) && exists archive :: Contains(c, tools, plan, archive, content)
  }

  /** A commit installs what the release's only asset of that name holds; with a policy, the transcript is on file. */
  ghost predicate Grounded(c: Config, s: State, tools: Tools, u: Updater, inquiry: Inquiry, plan: Plan) {
    && Sourced(c.verify, u, inquiry, plan) && Delivered(c, s, plan) && Witnessed(c, s, u, inquiry, plan)
    && OutOfArchive(c, tools, inquiry, plan, s.disk.At(Target).content)
  }

  /** What the caller of a check and an install can count on. */
  ghost predicate Fulfilled(
    c: Config, s: State, tools: Tools, u: Updater, inquiry: Inquiry, plan: Plan, r: Outcome)
  {
    && (r.committed ==> Grounded(c, s, tools, u, inquiry, plan))
    && (r.fault == NoFault ==> r.committed && LeftTidy(c, s.disk, r))
  }

  lemma UnpackedIsContained(c: Config, tools: Tools, plan: Plan, archive: Bytes, content: Bytes)
    requires Reads(c, tools) && Fitting(c.platform, plan.assetName)
    requires c.hash(archive) == plan.digest && Unpack(c, archive) == Some(content)
    ensures Contains(c, tools, plan, archive, content)
  {
    MemberIsUnpacked(c, tools, plan.assetName, archive);
  }

  lemma DeliveredIsOutOfArchive(c: Config, s: State, tools: Tools, inquiry: Inquiry, plan: Plan)
    requires Delivered(c, s, plan) && Reads(c, tools) && Fitting(c.platform, plan.assetName) && inquiry.Runs(c.member)
    ensures OutOfArchive(c, tools, inquiry, plan, s.disk.At(Target).content)
  {
    var e := s.history[|s.history| - 1];
    UnpackedIsContained(c, tools, plan, e.archive, e.after);
  }

  lemma KeptIsFulfilled(story: Story, tools: Tools, u: Updater, inquiry: Inquiry, p: nat, plan: Plan, r: Outcome)
    requires Sourced(story.c.verify, u, inquiry, plan) && Kept(story.c, story.run, p, plan, r)
    requires Witnessed(story.c, story.now, u, inquiry, plan) && Reads(story.c, tools) && Serves(story.c, inquiry)
    ensures Fulfilled(story.c, story.now, tools, u, inquiry, plan, r)
  {
    if r.committed {
      PlanFitsPlatform(story.c.verify, u, inquiry, plan);
      DeliveredIsOutOfArchive(story.c, story.now, tools, inquiry, plan);
    }
  }

  /** What an apply owes to its caller it has given, when it was refused as well as otherwise. */
  lemma ApplyFulfills(
    before: Story, story: Story, tools: Tools, u: Updater, inquiry: Inquiry, p: nat, plan: Plan, r: Outcome)
    requires Continues(before, story) && Witnessed(before.c, before.now, u, inquiry, plan)
    requires Sourced(story.c.verify, u, inquiry, plan) && Reads(story.c, tools) && Serves(story.c, inquiry)
    requires Kept(story.c, story.run, p, plan, r) || r == Outcome(false, false, Failed)
    ensures Fulfilled(story.c, story.now, tools, u, inquiry, plan, r)
  {
    WitnessStays(before, story, u, inquiry, plan);
    if r.committed {
      KeptIsFulfilled(story, tools, u, inquiry, p, plan, r);
    }
  }

  /** Applies a plan that some check has made, any time later. */
  method ApplyLater(w: World, u: Updater, plan: Plan, supplies: Supplies, patience: nat)
    returns (result: Outcome, ghost p: nat)
    requires w.Valid() && plan in w.Now().plans && Deliverable(w.c, OrderOf(plan, supplies))
    modifies w
    ensures w.Valid() && Continues(old(w.story), w.story)
    ensures Kept(w.c, w.story.run, p, plan, result) || result == Outcome(false, false, Failed)
    ensures Permitted(u, plan) && !result.committed ==>
      w.mishaps > old(w.mishaps) || Excused(w.c, w.disk, OrderOf(plan, supplies))
  {
    Wait(w, plan);
    p := w.born;
    result := Apply(w, u, OrderOf(plan, supplies), patience);
  }

  /**
   What a caller does with the two: checks, waits as long as it likes, and applies the plan if there is one. Apply's
   demand that its plan comes from a check is met, whatever others have done meanwhile; and what is committed is
   the program that the release offers, attested for exactly that release if the updater has a policy.
   */
  method CheckAndApply(w: World, u: Updater, inquiry: Inquiry, supplies: Supplies, patience: nat)
    returns (plan: Option<Plan>, result: Outcome)
    requires w.Valid() && Reads(w.c, supplies.tools)
    requires Serves(w.c, inquiry)
    modifies w
    ensures w.Valid() && Continues(old(w.story), w.story)
    ensures plan.None? ==>
      && result == Outcome(false, false, Failed)
      && (w.mishaps > old(w.mishaps) || forall p :: !Planned(w.c, w.disk, u, inquiry, p))
    ensures plan.Some? ==>
      && Sourced(w.c.verify, u, inquiry, plan.value)
      && Fulfilled(w.c, w.Now(), supplies.tools, u, inquiry, plan.value, result)
    ensures plan.Some? && Permitted(u, plan.value) && !result.committed ==>
      w.mishaps > old(w.mishaps) || Excused(w.c, w.disk, OrderOf(plan.value, supplies))
  {
    result := Outcome(false, false, Failed);
    plan := Check(w, u, inquiry);
    if plan.None? {
      return;
    }
    ghost var before, p := w.story, 0;
    PlanFitsPlatform(w.c.verify, u, inquiry, plan.value);
    result, p := ApplyLater(w, u, plan.value, supplies, patience);
    ApplyFulfills(before, w.story, supplies.tools, u, inquiry, p, plan.value, result);
  }
}

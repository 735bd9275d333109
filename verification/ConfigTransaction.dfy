/**
  The verified configuration transaction: review, snapshot, conditional uploads, verification,
  activation and a rollback that only ever reads.

  Every claim is about the ghost trace of one run: `pre` is what happened before the first upload,
  `up` the upload loop and `post` everything after it.
 */
module ConfigTransaction {
  import opened Prelude
  import opened Transport
  import opened IncludeGraph

  // ----- plans, snapshots and what they promise -----

  datatype Artifact = Artifact(content: Bytes, previous: Option<Bytes>)
  type Plan = map<Name, Artifact>

  predicate Changed(a: Artifact) {
    a.previous != Some(a.content)
  }

  function ChangedNames(plan: Plan): set<Name> {
    set name | name in plan && Changed(plan[name])
  }

  /** A plan is built over a baseline: what it replaces is what the baseline holds. */
  predicate PlanFor(plan: Plan, reviewed: Contents) {
    forall name :: name in plan ==> name in reviewed && plan[name].previous == reviewed[name]
  }

  /** The reviewed files as they must be once the plan is in place. */
  function Expected(plan: Plan, reviewed: Contents): Contents {
    map name | name in reviewed.Keys + plan.Keys ::
      if name in plan then Some(plan[name].content) else reviewed[name]
  }

  datatype Snapshot = Snapshot(configFiles: map<Name, Bytes>, missing: set<Name>)

  function SnapshotOf(originals: Contents): Snapshot {
    Snapshot(map name | name in originals && originals[name].Some? :: originals[name].value,
             set name | name in originals && originals[name].None?)
  }

  /** The snapshot records `content`, or its absence, as the original of `name`. */
  predicate Records(snapshot: Snapshot, name: Name, content: Option<Bytes>) {
    match content
    case Some(bytes) => name in snapshot.configFiles && snapshot.configFiles[name] == bytes
    case None => name !in snapshot.configFiles && name in snapshot.missing
  }

  lemma SnapshotRecordsOriginals(originals: Contents, name: Name, content: Option<Bytes>)
    requires name in originals
    ensures Records(SnapshotOf(originals), name, content) <==> content == originals[name]
  {
  }

  /** Recovery may touch only our exact write; an original is already restored. */
  function RollbackFileOwned(current: Option<Bytes>, original: Option<Bytes>, written: Bytes): (r: Result<bool, Exn>)
    ensures r.Success? ==> current == if r.value then Some(written) else original
  {
    if current == original then Success(false)
    else if current == Some(written) then Success(true)
    else Failure(OtherFailure)
  }

  method VerifySnapshotRestored(snapshot: Snapshot, current: Contents, names: set<Name>) returns (restored: bool)
    ensures restored <==> forall name :: name in names ==> name in current && Records(snapshot, name, current[name])
  {
    var todo := names;
    while todo != {}
      invariant todo <= names
      invariant forall name :: name in names - todo ==> name in current && Records(snapshot, name, current[name])
      decreases |todo|
    {
      var name :| name in todo;
      if name !in current || !Records(snapshot, name, current[name]) {
        return false;
      }
      todo := todo - {name};
    }
    restored := true;
  }

  // ----- claims over traces -----

  function Attempted(tr: Trace): set<Name> {
    set i | 0 <= i < |tr| && tr[i].call.Upload? :: tr[i].call.name
  }

  /** Every upload sends a planned content for the reviewed content it replaces, conditionally. */
  ghost predicate Conforming(tr: Trace, plan: Plan, reviewed: Contents, kind: Kind) {
    forall i :: 0 <= i < |tr| && tr[i].call.Upload? ==>
      var call := tr[i].call;
      && call.name in ChangedNames(plan)
      && call.content == plan[call.name].content
      && call.name in reviewed && call.expected == reviewed[call.name]
      && SupportsConditionalWrite(kind, call.expected)
  }

  ghost predicate AppliedAt(tr: Trace, i: nat, name: Name) {
    i < |tr| && tr[i].call.Upload? && tr[i].call.name == name && tr[i].call.applied
  }

  ghost predicate AppliedBefore(tr: Trace, end: nat, name: Name) {
    exists j :: 0 <= j < end && AppliedAt(tr, j, name)
  }

  /** The root goes last: an upload of it is attempted only after every other one was applied. */
  ghost predicate RootLast(tr: Trace, plan: Plan) {
    forall i, name :: 0 <= i < |tr| && tr[i].call.Upload? && tr[i].call.name == Root
                      && name in ChangedNames(plan) && name != Root
      ==> AppliedBefore(tr, i, name)
  }

  /** `name` was read with this content after the last attempt to upload it. */
  ghost predicate ReadBack(tr: Trace, name: Name, content: Option<Bytes>) {
    exists i :: 0 <= i < |tr| && ReadBackAt(tr, i, name, content)
  }

  ghost predicate ReadBackAt(tr: Trace, i: nat, name: Name, content: Option<Bytes>) {
    && i < |tr| && tr[i].call == ReadOne(name, content)
    && forall j :: i < j < |tr| && tr[j].call.Upload? ==> tr[j].call.name != name
  }

  /** One look at files: the target checked, then each of them read with the expected content. */
  ghost predicate Revalidation(tr: Trace, expected: Contents) {
    tr != [] && tr[0].call == ValidateTarget && OnlyReads(tr[1..]) && Evidence(tr[1..], expected)
  }

  /** Right before each upload its target was looked at, and held the content that the upload replaces. */
  ghost predicate LookedAt(tr: Trace, i: nat)
    requires i < |tr| && tr[i].call.Upload?
  {
    exists j :: 0 <= j < i && Revalidation(tr[j..i], map[tr[i].call.name := tr[i].call.expected])
  }

  ghost predicate EachLookedAt(tr: Trace) {
    forall i :: 0 <= i < |tr| && tr[i].call.Upload? ==> LookedAt(tr, i)
  }

  /** The reviewed files were looked at three times: for the review, before the snapshot and before the first write. */
  ghost predicate ThriceSeen(pre: Trace, reviewed: Contents) {
    exists first, second, third :: ThreeLooks(pre, reviewed, first, second, third)
  }

  ghost predicate ThreeLooks(pre: Trace, reviewed: Contents, first: Trace, second: Trace, third: Trace) {
    && pre == first + second + third
    && Revalidation(first, reviewed) && Revalidation(second, reviewed) && Revalidation(third, reviewed)
  }

  ghost predicate AllRestored(tr: Trace, reviewed: Contents) {
    forall name :: name in Attempted(tr) ==> name in reviewed && ReadBack(tr, name, reviewed[name])
  }

  /** Attempted names outside the write set were read back as they were before. */
  ghost predicate WriteSetSound(tr: Trace, written: set<Name>, reviewed: Contents) {
    && written <= Attempted(tr)
    && forall name :: name in Attempted(tr) && name !in written ==> name in reviewed && ReadBack(tr, name, reviewed[name])
  }

  ghost predicate Called(tr: Trace, call: Call) {
    exists i :: 0 <= i < |tr| && tr[i].call == call
  }

  ghost predicate NoRestart(tr: Trace) {
    forall i :: 0 <= i < |tr| ==> !tr[i].call.Restart? && !tr[i].call.RestartMoonraker?
  }

  /** Klipper restarted, after Moonraker came back online twice if it was to be restarted as well. */
  ghost predicate RestartsAt(tr: Trace, i: nat, mode: Mode, moonraker: bool) {
    && i < |tr| && tr[i].call == Restart(mode) && NoRestart(tr[i + 1..])
    && (if moonraker then i > 2 && tr[0].call == RestartMoonraker && NoRestart(tr[1..i])
                          && tr[i - 2].call == Online(true) && tr[i - 1].call == Online(true)
        else i == 0)
  }

  ghost predicate Restarts(tr: Trace, mode: Mode, moonraker: bool) {
    exists i :: 0 <= i < |tr| && RestartsAt(tr, i, mode, moonraker)
  }

  ghost predicate TwoReadySamples(tr: Trace) {
    |tr| == 4 && tr[0].call == Online(true) && tr[1].call == State(Ready)
    && tr[2].call == Online(true) && tr[3].call == State(Ready)
  }

  /** Klipper was never seen in a state that it does not leave by itself. */
  ghost predicate NeverDown(tr: Trace) {
    forall i :: 0 <= i < |tr| && tr[i].call.State? ==> tr[i].call.state !in {Shutdown, Error}
  }

  lemma NothingSampled()
    ensures NoRestart([]) && NeverDown([])
  {
  }

  /** One more sample is no restart; only a sample of Klipper can find it down. */
  lemma Sampled(ev: Trace, more: Trace)
    requires NoRestart(ev) && NeverDown(ev) && |more| <= 1
    requires more != [] ==> more[0].call.Online? || more[0].call.State?
    ensures NoRestart(ev + more)
    ensures more == [] || !more[0].call.State? || more[0].call.state !in {Shutdown, Error} ==> NeverDown(ev + more)
  {
  }

  ghost predicate EndsReady(tr: Trace) {
    |tr| >= 4 && TwoReadySamples(tr[|tr| - 4..])
  }

  lemma ReadyTwice(tr: Trace)
    requires |tr| >= 4 && tr[|tr| - 4].call == Online(true) && tr[|tr| - 3].call == State(Ready)
    requires tr[|tr| - 2].call == Online(true) && tr[|tr| - 1].call == State(Ready)
    ensures EndsReady(tr)
  {
  }

  /** Every planned file was seen as planned, and every other reviewed one as the review found it. */
  ghost predicate InPlace(tr: Trace, plan: Plan, reviewed: Contents) {
    && (forall name :: name in plan ==> Saw(tr, name, Some(plan[name].content)))
    && (forall name :: name in reviewed && name !in plan ==> Saw(tr, name, reviewed[name]))
  }

  /** One pass over the files: the target checked, then the plan and the rest of the review seen in place. */
  ghost predicate IsVerification(tr: Trace, plan: Plan, reviewed: Contents) {
    tr != [] && tr[0].call == ValidateTarget && OnlyReads(tr[1..]) && InPlace(tr[1..], plan, reviewed)
  }

  /** How a run chose to activate the plan, and what it was asked to prove. */
  datatype Terms = Terms(mode: Mode, noop: bool, moonraker: bool, firmware: bool, activeConfig: bool)

  ghost predicate ActivationParts(ev: Trace, plan: Plan, reviewed: Contents, terms: Terms,
                                  restarts: Trace, ready: Trace, checks: Trace, last: Trace)
  {
    && ev == restarts + ready + checks + last
    && TwoReadySamples(ready)
    && IsVerification(last, plan, reviewed)
    && (terms.firmware ==> Called(checks, FirmwareVerified))
    && (terms.noop && terms.activeConfig ==> Called(checks, ActiveConfigVerified))
    && (terms.noop ==> NoRestart(ev))
    && (!terms.noop ==> restarts != [] && restarts[0].call == ValidateTarget
                        && Restarts(restarts[1..], terms.mode, terms.moonraker))
  }

  /** The printer runs the plan: restarted or not, two Ready samples, firmware, then a last full read. */
  ghost predicate ActivationEvidence(ev: Trace, plan: Plan, reviewed: Contents, terms: Terms) {
    exists restarts, ready, checks, last :: ActivationParts(ev, plan, reviewed, terms, restarts, ready, checks, last)
  }

  /** What a COMMITTED result rests on: the uploads verified before anything else, then the activation. */
  ghost predicate CommitEvidence(post: Trace, plan: Plan, reviewed: Contents, terms: Terms) {
    exists first, rest ::
      post == first + rest && IsVerification(first, plan, reviewed) && ActivationEvidence(rest, plan, reviewed, terms)
  }

  /** Every planned file that differs from what the review found was uploaded. */
  ghost predicate Installed(up: Trace, plan: Plan, reviewed: Contents) {
    forall name :: name in plan && name in reviewed && reviewed[name] != Some(plan[name].content)
      ==> AppliedBefore(up, |up|, name)
  }

  /** Every one of these files was read with its reviewed content. */
  ghost predicate AllSeen(tr: Trace, names: set<Name>, reviewed: Contents) {
    forall name :: name in names ==> name in reviewed && Saw(tr, name, reviewed[name])
  }

  /** Nothing but our own write or the original was found. */
  ghost predicate AllOwned(tr: Trace, names: set<Name>, plan: Plan, reviewed: Contents) {
    forall name :: name in names ==>
      name in plan && name in reviewed && (Saw(tr, name, reviewed[name]) || Saw(tr, name, Some(plan[name].content)))
  }

  ghost predicate RecoveryParts(ev: Trace, names: set<Name>, reviewed: Contents, mode: Mode, moonraker: bool,
                                again: Trace, restarts: Trace, ready: Trace, last: Trace)
  {
    && ev == again + restarts + ready + last
    && AllSeen(again, names, reviewed)
    && (mode == NoActivation ==> restarts + ready + last == [])
    && (mode != NoActivation ==>
          Restarts(restarts, mode, moonraker) && TwoReadySamples(ready) && AllSeen(last, names, reviewed))
  }

  /** Unless nothing was to be activated, the printer was restarted on the files and they were read once more. */
  ghost predicate RecoveryEvidence(ev: Trace, names: set<Name>, reviewed: Contents, mode: Mode, moonraker: bool) {
    exists again, restarts, ready, last ::
      RecoveryParts(ev, names, reviewed, mode, moonraker, again, restarts, ready, last)
  }

  /** What a successful rollback rests on: every written file ours or restored, then restored, then the recovery. */
  ghost predicate RollbackEvidence(ev: Trace, names: set<Name>, plan: Plan, reviewed: Contents, mode: Mode, moonraker: bool) {
    exists past, owned, looked, recovery ::
      && ev == past + owned + looked + recovery
      && AllOwned(owned, names, plan, reviewed) && AllSeen(looked, names, reviewed)
      && RecoveryEvidence(recovery, names, reviewed, mode, moonraker)
  }

  lemma QuietEmpty()
    ensures Quiet([])
  {
  }

  lemma QuietAppend(a: Trace, b: Trace)
    requires Quiet(a) && Quiet(b)
    ensures Quiet(a + b)
  {
  }

  lemma QuietFrame(a: Trace, b: Trace)
    requires Quiet(b)
    ensures Attempted(a + b) == Attempted(a)
    ensures forall plan, reviewed, kind :: Conforming(a, plan, reviewed, kind) ==> Conforming(a + b, plan, reviewed, kind)
    ensures forall plan :: RootLast(a, plan) ==> RootLast(a + b, plan)
    ensures forall name, content :: ReadBack(a, name, content) ==> ReadBack(a + b, name, content)
    ensures forall name, content :: Saw(b, name, content) ==> ReadBack(a + b, name, content)
  {
    var tr := a + b;
    assert forall i :: 0 <= i < |a| ==> tr[i] == a[i];
    assert forall i :: |a| <= i < |tr| ==> tr[i] == b[i - |a|];
    forall name | name in Attempted(a) ensures name in Attempted(tr) {
      var i :| 0 <= i < |a| && a[i].call.Upload? && a[i].call.name == name;
      assert tr[i] == a[i];
    }
    forall name, content | ReadBack(a, name, content) ensures ReadBack(tr, name, content) {
      var i :| 0 <= i < |a| && ReadBackAt(a, i, name, content);
      assert ReadBackAt(tr, i, name, content);
    }
    forall name, content | Saw(b, name, content) ensures ReadBack(tr, name, content) {
      var i :| 0 <= i < |b| && b[i].call == ReadOne(name, content);
      assert ReadBackAt(tr, |a| + i, name, content);
    }
    forall plan | RootLast(a, plan) ensures RootLast(tr, plan) {
      forall i, name | 0 <= i < |tr| && tr[i].call.Upload? && tr[i].call.name == Root
                       && name in ChangedNames(plan) && name != Root
        ensures AppliedBefore(tr, i, name)
      {
        assert AppliedBefore(a, i, name);
        var j :| 0 <= j < i && AppliedAt(a, j, name);
        assert AppliedAt(tr, j, name);
      }
    }
  }

  lemma QuietFrameApplied(a: Trace, b: Trace, name: Name)
    requires AppliedBefore(a, |a|, name)
    ensures AppliedBefore(a + b, |a + b|, name)
  {
    var j :| 0 <= j < |a| && AppliedAt(a, j, name);
    assert AppliedAt(a + b, j, name);
  }

  /** What one conforming upload, not attempted before, adds to the claims. */
  lemma UploadFrame(a: Trace, e: Event, plan: Plan, reviewed: Contents, kind: Kind)
    requires e.call.Upload? && e.call.name !in Attempted(a)
    requires Conforming(a, plan, reviewed, kind) && Conforming([e], plan, reviewed, kind)
    requires RootLast(a, plan)
    requires e.call.name == Root ==>
      forall name :: name in ChangedNames(plan) && name != Root ==> AppliedBefore(a, |a|, name)
    ensures Attempted(a + [e]) == Attempted(a) + {e.call.name}
    ensures Conforming(a + [e], plan, reviewed, kind)
    ensures RootLast(a + [e], plan)
    ensures forall name, content :: name != e.call.name && ReadBack(a, name, content) ==> ReadBack(a + [e], name, content)
    ensures e.call.applied ==> AppliedBefore(a + [e], |a + [e]|, e.call.name)
  {
    var tr := a + [e];
    assert tr[|a|] == e;
    assert forall i :: 0 <= i < |a| ==> tr[i] == a[i];
    forall name | name in Attempted(a) ensures name in Attempted(tr) {
      var i :| 0 <= i < |a| && a[i].call.Upload? && a[i].call.name == name;
      assert tr[i] == a[i];
    }
    assert e.call.name in Attempted(tr);
    assert [e][0] == e;
    forall name, content | name != e.call.name && ReadBack(a, name, content) ensures ReadBack(tr, name, content) {
      var i :| 0 <= i < |a| && ReadBackAt(a, i, name, content);
      assert ReadBackAt(tr, i, name, content);
    }
    forall i, name | 0 <= i < |tr| && tr[i].call.Upload? && tr[i].call.name == Root
                     && name in ChangedNames(plan) && name != Root
      ensures AppliedBefore(tr, i, name)
    {
      assert AppliedBefore(a, i, name);
      var j :| 0 <= j < i && AppliedAt(a, j, name);
      assert AppliedAt(tr, j, name);
    }
    if e.call.applied {
      assert AppliedAt(tr, |a|, e.call.name);
    }
  }

  /** The upload claims so far; every change outside `todo` has been applied. */
  ghost predicate Uploading(up: Trace, todo: set<Name>, plan: Plan, reviewed: Contents, kind: Kind, written: set<Name>) {
    && UploadsSound(up, plan, reviewed, kind, written)
    && Attempted(up) !! todo
    && forall name :: name in ChangedNames(plan) && name !in todo ==> AppliedBefore(up, |up|, name)
  }

  /** What holds of the upload loop however it ends. */
  ghost predicate UploadsSound(up: Trace, plan: Plan, reviewed: Contents, kind: Kind, written: set<Name>) {
    && Conforming(up, plan, reviewed, kind)
    && RootLast(up, plan)
    && EachLookedAt(up)
    && WriteSetSound(up, written, reviewed)
  }

  lemma UploadingNothing(plan: Plan, reviewed: Contents, kind: Kind)
    ensures Uploading([], ChangedNames(plan), plan, reviewed, kind, {})
  {
  }

  lemma LookedAtFrame(a: Trace, b: Trace)
    requires EachLookedAt(a) && Quiet(b)
    ensures EachLookedAt(a + b)
  {
    var tr := a + b;
    assert forall i :: |a| <= i < |tr| ==> tr[i] == b[i - |a|];
    forall i | 0 <= i < |tr| && tr[i].call.Upload? ensures LookedAt(tr, i) {
      assert LookedAt(a, i);
      var j :| 0 <= j < i && Revalidation(a[j..i], map[a[i].call.name := a[i].call.expected]);
      assert tr[j..i] == a[j..i];
    }
  }

  lemma UploadingLooked(up: Trace, todo: set<Name>, plan: Plan, reviewed: Contents, kind: Kind, written: set<Name>)
    requires Uploading(up, todo, plan, reviewed, kind, written)
    ensures EachLookedAt(up)
  {
  }

  lemma LookedAtStep(a: Trace, look: Trace, e: Event)
    requires EachLookedAt(a) && e.call.Upload? && Revalidation(look, map[e.call.name := e.call.expected])
    ensures EachLookedAt(a + look + [e])
  {
    var before := a + look;
    var tr := before + [e];
    assert Quiet(look);
    LookedAtFrame(a, look);
    forall i | 0 <= i < |tr| && tr[i].call.Upload? ensures LookedAt(tr, i) {
      if i < |before| {
        assert tr[i] == before[i] && LookedAt(before, i);
        var j :| 0 <= j < i && Revalidation(before[j..i], map[before[i].call.name := before[i].call.expected]);
        assert tr[j..i] == before[j..i];
      } else {
        assert tr[|a|..i] == look;
      }
    }
  }

  lemma UploadingQuiet(up: Trace, quiet: Trace, todo: set<Name>, plan: Plan, reviewed: Contents, kind: Kind,
                       written: set<Name>)
    requires Uploading(up, todo, plan, reviewed, kind, written) && Quiet(quiet)
    ensures Uploading(up + quiet, todo, plan, reviewed, kind, written)
  {
    QuietFrame(up, quiet);
    LookedAtFrame(up, quiet);
    forall name | name in ChangedNames(plan) && name !in todo ensures AppliedBefore(up + quiet, |up + quiet|, name) {
      QuietFrameApplied(up, quiet, name);
    }
  }

  /** One look and one upload attempt, and the read that may follow a failed one. */
  lemma UploadStep(past: Trace, look: Trace, e: Event, back: Trace, todo: set<Name>, plan: Plan, reviewed: Contents,
                   kind: Kind, written: set<Name>, grown: set<Name>)
    requires Uploading(past, todo, plan, reviewed, kind, written) && Quiet(look) && Quiet(back)
    requires e.call.Upload? && Revalidation(look, map[e.call.name := e.call.expected])
    requires e.call.name in todo && (e.call.name == Root ==> todo == {Root})
    requires Conforming([e], plan, reviewed, kind)
    requires e.call.name in reviewed
    requires grown == written + {e.call.name} || (grown == written && Saw(back, e.call.name, reviewed[e.call.name]))
    ensures UploadsSound(past + look + [e] + back, plan, reviewed, kind, grown)
    ensures e.call.applied && grown == written + {e.call.name} ==>
      Uploading(past + look + [e] + back, todo - {e.call.name}, plan, reviewed, kind, grown)
  {
    hide LookedAt, EachLookedAt, Revalidation;
    var up := past + look;
    var attempted := up + [e];
    assert EachLookedAt(past) by { UploadingLooked(past, todo, plan, reviewed, kind, written); }
    LookedAtStep(past, look, e);
    LookedAtFrame(attempted, back);
    UploadingQuiet(past, look, todo, plan, reviewed, kind, written);
    UploadFrame(up, e, plan, reviewed, kind);
    QuietFrame(attempted, back);
    if e.call.applied {
      forall name | name in ChangedNames(plan) && name !in todo - {e.call.name}
        ensures AppliedBefore(attempted + back, |attempted + back|, name)
      {
        if name != e.call.name {
          QuietFrameApplied(up, [e], name);
        }
        QuietFrameApplied(attempted, back, name);
      }
    }
  }

  // ----- the transaction -----

  datatype TxState =
    | PreconditionFailed | Cancelled | SnapshotFailed | RollbackFailed
    | ApplyFailed          // UPLOAD_FAILED, VERIFY_FAILED or ACTIVATION_FAILED
    | FirmwareFailed | PendingActivation | Committed

  /** `None`: no rollback was needed. */
  datatype TxResult = TxResult(state: TxState, rollback: Option<bool>)

  datatype Verdict = Invalid | Declined | Reviewed

  class ConfigDeploymentTransaction {
    const transport: ConfigTransport
    const inc: Includes
    const generatedHardware: Bytes
    const generatedMacros: Option<Bytes>
    const verifyExistingReady: bool
    const verifiesFirmware: bool
    const reviewBeforehand: bool

    var activation: Mode
    var plan: Option<Plan>
    var snapshot: Option<Snapshot>
    var expectedConfigState: Contents
    var writtenNames: set<Name>

    ghost var reviewed: Contents
    /** What the operator answered to the review, once asked. */
    ghost var answer: Option<bool>
    /** What the semantic validations of the plan said. */
    ghost var validations: seq<bool>
    /** Whether the proposed files were saved for the operator. */
    ghost var preserved: bool
    /** The error that kept the proposal from being preserved after writes had begun. */
    ghost var proposalLost: Option<Exn>

    constructor (transport: ConfigTransport, inc: Includes, hardware: Bytes, macros: Option<Bytes>, activation: Mode,
                 verifyExistingReady: bool, verifiesFirmware: bool, reviewBeforehand: bool)
      ensures this.transport == transport && this.activation == activation
      ensures Fresh()
    {
      this.transport, this.inc := transport, inc;
      this.generatedHardware, this.generatedMacros := hardware, macros;
      this.activation := activation;
      this.verifyExistingReady, this.verifiesFirmware := verifyExistingReady, verifiesFirmware;
      this.reviewBeforehand := reviewBeforehand;
      this.plan, this.snapshot := None, None;
      this.expectedConfigState, this.writtenNames := map[], {};
      this.reviewed, this.answer, this.proposalLost := map[], None, None;
      this.validations, this.preserved := [], false;
    }

    ghost predicate Fresh()
      reads this
    {
      plan.None? && snapshot.None? && writtenNames == {} && answer.None? && proposalLost.None? && validations == [] && !preserved
    }

    ghost predicate Planned()
      reads this
    {
      && plan.Some?
      && PlanFor(plan.value, reviewed)
      && expectedConfigState == Expected(plan.value, reviewed)
    }

    ghost function Changes(): set<Name>
      reads this
    {
      if plan.Some? then ChangedNames(plan.value) else {}
    }

    ghost function Originals(): Contents
      requires Planned()
      reads this
    {
      map name | name in Changes() :: reviewed[name]
    }

    /** The snapshot holds the reviewed original of every file the plan changes. */
    ghost predicate Snapshotted()
      reads this
    {
      && Planned()
      && (Changes() != {} ==> snapshot.Some?)
      && (snapshot.Some? ==> snapshot.value == SnapshotOf(Originals()))
      && writtenNames <= Changes()
    }

    ghost function CommitTerms(): Terms
      reads this
    {
      Terms(activation, Changes() == {} && verifyExistingReady, MoonrakerConf in Changes(),
            verifiesFirmware, transport.kind != OfflineLocal)
    }

    // ----- calls into code outside this model: they answer anything, or raise -----

    /** The review or the confirmation prompt. */
    method Ask() returns (r: Result<bool, Exn>)
      modifies this`answer
      ensures answer == if r.Success? then Some(r.value) else old(answer)
    {
      var given: bool := *;
      var raised := MayRaise();
      if raised.Some? {
        return Failure(raised.value);
      }
      answer := Some(given);
      r := Success(given);
    }

    method IsPlanFor(candidate: Plan, remote: Contents) returns (ok: bool)
      ensures ok ==> PlanFor(candidate, remote)
    {
      ok := forall name | name in candidate :: name in remote && candidate[name].previous == remote[name];
    }

    /** The planner: any plan over the baseline that it was given. */
    method BuildPlan(remote: Contents) returns (r: Result<Plan, Exn>)
      ensures r.Success? ==> PlanFor(r.value, remote)
    {
      var candidate: Plan := *;
      var raised := MayRaise();
      var ok := IsPlanFor(candidate, remote);
      r := if raised.Some? then Failure(raised.value) else if ok then Success(candidate) else Failure(OtherFailure);
    }

    method CreateSnapshot(originals: Contents) returns (r: Result<Snapshot, Exn>)
      ensures r.Success? ==> r.value == SnapshotOf(originals)
    {
      var raised := MayRaise();
      r := if raised.Some? then Failure(raised.value) else Success(SnapshotOf(originals));
    }

    // ----- waiting -----

    method WaitReady() returns (r: Result<bool, Exn>, ghost ev: Trace)
      requires AllLegit(transport.trace)
      modifies transport
      ensures transport.trace == old(transport.trace) + ev && AllLegit(transport.trace) && Quiet(ev)
      ensures NoRestart(ev)
      ensures r == Success(true) ==> EndsReady(ev) && NeverDown(ev)
    {
      hide AllLegit, Quiet, EndsReady, NoRestart, NeverDown;
      NothingSampled();
      ev := [];
      Nothing();
      var readySamples := 0;
      var polls: nat := *;
      while polls > 0
        invariant transport.trace == old(transport.trace) + ev && AllLegit(transport.trace) && Quiet(ev)
        invariant NoRestart(ev) && NeverDown(ev)
        invariant 0 <= readySamples <= 1
        invariant readySamples == 1 ==>
          |ev| >= 2 && ev[|ev| - 2].call == Online(true) && ev[|ev| - 1].call == State(Ready)
      {
        polls := polls - 1;
        var online, more := transport.MoonrakerOnline();
        Joined(ev, more);
        Sampled(ev, more);
        ev := ev + more;
        if online.Failure? {
          return Failure(online.error), ev;
        }
        if !online.value {
          readySamples := 0;
          continue;
        }
        var state;
        state, more := transport.ReadKlipperState();
        Joined(ev, more);
        Sampled(ev, more);
        ev := ev + more;
        if state.Failure? {
          return Failure(state.error), ev;
        }
        if state.value == Ready {
          readySamples := readySamples + 1;
          if readySamples >= 2 {
            ReadyTwice(ev);
            return Success(true), ev;
          }
          continue;
        }
        readySamples := 0;
        if state.value in {Shutdown, Error} {
          return Success(false), ev;
        }
      }
      r := Success(false);
    }

    method WaitMoonraker() returns (r: Result<bool, Exn>, ghost ev: Trace)
      requires AllLegit(transport.trace)
      modifies transport
      ensures transport.trace == old(transport.trace) + ev && AllLegit(transport.trace) && Quiet(ev)
      ensures NoRestart(ev)
      ensures r == Success(true) ==>
        |ev| >= 2 && ev[|ev| - 2].call == Online(true) && ev[|ev| - 1].call == Online(true)
    {
      ev := [];
      var onlineSamples := 0;
      var polls: nat := *;
      while polls > 0
        invariant transport.trace == old(transport.trace) + ev && AllLegit(transport.trace) && Quiet(ev)
        invariant 0 <= onlineSamples <= 1 && NoRestart(ev)
        invariant onlineSamples == 1 ==> |ev| >= 1 && ev[|ev| - 1].call == Online(true)
      {
        polls := polls - 1;
        var online, more := transport.MoonrakerOnline();
        ev := ev + more;
        if online.Failure? {
          return Failure(online.error), ev;
        }
        onlineSamples := if online.value then onlineSamples + 1 else 0;
        if onlineSamples >= 2 {
          return Success(true), ev;
        }
      }
      r := Success(false);
    }

    // ----- reading against the review -----

    /** Fails closed on any difference from `expected`, and on any failure to look. */
    method RevalidateConfigState(expected: Contents) returns (raised: Option<Exn>, ghost ev: Trace)
      requires AllLegit(transport.trace)
      modifies transport
      ensures transport.trace == old(transport.trace) + ev && AllLegit(transport.trace) && Quiet(ev)
      ensures raised.None? ==> Revalidation(ev, expected)
      ensures raised.Some? ==> raised.value in {Conflict, Interrupt}
    {
      raised, ev := transport.Perform(ValidateTarget);
      if raised.Some? {
        return if raised.value == Interrupt then raised else Some(Conflict), ev;
      }
      var remote, more := transport.ReadFiles(expected.Keys);
      ev := ev + more;
      if remote.Failure? {
        return Some(if remote.error == Interrupt then Interrupt else Conflict), ev;
      }
      if exists name | name in expected :: remote.value[name] != expected[name] {
        return Some(Conflict), ev;
      }
      assert ev[1..] == more;
      raised := None;
    }

    method VerifyPlan() returns (raised: Option<Exn>, ghost ev: Trace)
      requires Planned() && AllLegit(transport.trace)
      modifies transport
      ensures transport.trace == old(transport.trace) + ev && AllLegit(transport.trace) && Quiet(ev)
      ensures raised.None? ==> IsVerification(ev, plan.value, reviewed)
    {
      raised, ev := transport.Perform(ValidateTarget);
      if raised.Some? {
        return;
      }
      var current, more := transport.ReadFiles(expectedConfigState.Keys);
      ghost var first := ev;
      ev := ev + more;
      if current.Failure? {
        return Some(current.error), ev;
      }
      if exists name | name in plan.value :: current.value[name] != Some(plan.value[name].content) {
        return Some(OtherFailure), ev;
      }
      if exists name | name in expectedConfigState && name !in plan.value :: current.value[name] != expectedConfigState[name] {
        return Some(Conflict), ev;
      }
      assert ev[1..] == more;
      assert forall name :: name in plan.value ==> Saw(more, name, current.value[name]);
      raised := None;
    }

    method VerifyFirmware() returns (raised: Option<Exn>, ghost ev: Trace)
      requires AllLegit(transport.trace)
      modifies transport
      ensures transport.trace == old(transport.trace) + ev && AllLegit(transport.trace) && Quiet(ev)
      ensures raised.None? && verifiesFirmware ==> Called(ev, FirmwareVerified)
      ensures NoRestart(ev)
    {
      raised, ev := None, [];
      if verifiesFirmware {
        raised, ev := transport.Perform(FirmwareVerified);
        if raised.Some? && raised.value != Interrupt {
          raised := Some(FirmwareMismatch);
        }
      }
    }

    /** Refuses the whole plan when one of its writes could not be conditioned on the review. */
    method RequireConditionalWrites() returns (raised: Option<Exn>)
      requires Planned()
      modifies this`preserved
      ensures raised.None? ==>
        && preserved == old(preserved)
        && forall name :: name in Changes() ==> SupportsConditionalWrite(transport.kind, plan.value[name].previous)
      ensures raised.Some? ==>
        exists name :: name in Changes() && transport.kind != LocalMoonraker
                       && (transport.kind == MoonrakerHttp || plan.value[name].previous.Some?)
    {
      raised := None;
      if exists name | name in ChangedNames(plan.value) ::
        !SupportsConditionalWrite(transport.kind, plan.value[name].previous)
      {
        ghost var name :|
          name in ChangedNames(plan.value) && !SupportsConditionalWrite(transport.kind, plan.value[name].previous);
        raised := PreserveProposal();
        raised := if raised.Some? then raised else Some(Conflict);
        assert name in Changes();
      }
    }

    method PreserveProposal() returns (raised: Option<Exn>)
      modifies this`preserved
      ensures preserved == (old(preserved) || raised.None?)
    {
      raised := MayRaise();
      preserved := preserved || raised.None?;
    }

    /** The semantic validation of the plan. */
    method Validate() returns (valid: bool)
      modifies this`validations
      ensures validations == old(validations) + [valid]
    {
      valid := *;
      validations := validations + [valid];
    }

    // ----- uploading -----

    /** Records a failed upload unless the file is seen to hold its original. */
    method RecordPossibleWrite(name: Name) returns (ghost ev: Trace)
      requires Snapshotted() && name in Changes() && AllLegit(transport.trace)
      modifies transport, this`writtenNames
      ensures transport.trace == old(transport.trace) + ev && AllLegit(transport.trace) && OnlyReads(ev)
      ensures writtenNames == old(writtenNames) + {name}
        || (writtenNames == old(writtenNames) && Saw(ev, name, reviewed[name]))
    {
      assert snapshot.Some?;
      var current;
      current, ev := transport.ReadFile(name);
      if current.Failure? {
        writtenNames := writtenNames + {name};
        return;
      }
      SnapshotRecordsOriginals(Originals(), name, current.value);
      if name in snapshot.value.missing && current.value.None? {
        return;
      }
      if name in snapshot.value.configFiles && current.value == Some(snapshot.value.configFiles[name]) {
        return;
      }
      writtenNames := writtenNames + {name};
    }

    method UploadOne(name: Name, current: Contents, ghost up: Trace, ghost todo: set<Name>)
      returns (raised: Option<Exn>, ghost ev: Trace)
      requires Snapshotted() && name in Changes() && AllLegit(transport.trace) && current == reviewed
      requires Uploading(up, todo, plan.value, reviewed, transport.kind, writtenNames)
      requires name in todo && (name == Root ==> todo == {Root})
      requires SupportsConditionalWrite(transport.kind, reviewed[name])
      modifies transport, this`writtenNames
      ensures transport.trace == old(transport.trace) + ev && AllLegit(transport.trace)
      ensures writtenNames <= Changes()
      ensures UploadsSound(up + ev, plan.value, reviewed, transport.kind, writtenNames)
      ensures raised.None? ==>
        Uploading(up + ev, todo - {name}, plan.value, reviewed, transport.kind, writtenNames)
    {
      hide Uploading, UploadsSound, Legit, Revalidation;
      ghost var written := writtenNames;
      raised, ev := RevalidateConfigState(map[name := current[name]]);
      UploadingQuiet(up, ev, todo, plan.value, reviewed, transport.kind, written);
      if raised.Some? {
        UploadingSound(up + ev, todo, plan.value, reviewed, transport.kind, written);
        return;
      }
      ghost var look, e := ev, Event(map[], ValidateTarget, map[]);
      raised, e := transport.UploadIfUnchanged(name, plan.value[name].content, current[name]);
      ghost var back := [];
      if raised.None? {
        writtenNames := writtenNames + {name};
      } else {
        back := RecordPossibleWrite(name);
      }
      assert Conforming([e], plan.value, reviewed, transport.kind);
      UploadStep(up, look, e, back, todo, plan.value, reviewed, transport.kind, written, writtenNames);
      ev := ev + [e] + back;
      assert up + ev == up + look + [e] + back;
      assert transport.trace == old(transport.trace) + ev;
    }

    /** Everything else first, printer.cfg last: it may only reference published files. */
    method UploadAll(current: Contents) returns (raised: Option<Exn>, ghost up: Trace)
      requires Snapshotted() && writtenNames == {} && current == reviewed && AllLegit(transport.trace)
      requires forall name :: name in Changes() ==> SupportsConditionalWrite(transport.kind, reviewed[name])
      modifies transport, this`writtenNames
      ensures transport.trace == old(transport.trace) + up && AllLegit(transport.trace)
      ensures writtenNames <= Changes()
      ensures UploadsSound(up, plan.value, reviewed, transport.kind, writtenNames)
      ensures raised.None? ==> Uploading(up, {}, plan.value, reviewed, transport.kind, writtenNames)
    {
      hide Uploading, UploadsSound, AllLegit, PlanFor, Expected, SnapshotOf, ChangedNames;
      up := [];
      raised := None;
      var todo := ChangedNames(plan.value);
      UploadingNothing(plan.value, reviewed, transport.kind);
      while todo != {}
        invariant transport.trace == old(transport.trace) + up && AllLegit(transport.trace)
        invariant todo <= Changes() && writtenNames <= Changes() && Snapshotted()
        invariant Uploading(up, todo, plan.value, reviewed, transport.kind, writtenNames)
        decreases |todo|
      {
        var name := Root;
        if todo != {Root} {
          assert todo - {Root} != {};
          name :| name in todo - {Root};
        }
        ghost var ev;
        raised, ev := UploadOne(name, current, up, todo);
        up := up + ev;
        if raised.Some? {
          return;
        }
        todo := todo - {name};
      }
      UploadingSound(up, {}, plan.value, reviewed, transport.kind, writtenNames);
    }

    // ----- rolling back -----

    lemma OriginalOf(name: Name, original: Option<Bytes>)
      requires Snapshotted() && name in writtenNames && snapshot.Some?
      requires original == if name in snapshot.value.configFiles then Some(snapshot.value.configFiles[name]) else None
      ensures name in reviewed && original == reviewed[name]
    {
      SnapshotRecordsOriginals(Originals(), name, reviewed[name]);
    }

    /** Looks at each written file, and refuses when one holds neither our write nor its original. */
    method DiagnoseOwnership() returns (raised: Option<Exn>, ghost ev: Trace)
      requires Snapshotted() && writtenNames != {} && AllLegit(transport.trace)
      modifies transport
      ensures transport.trace == old(transport.trace) + ev && AllLegit(transport.trace) && Quiet(ev)
      ensures raised.None? ==> AllOwned(ev, writtenNames, plan.value, reviewed)
    {
      hide AllLegit, PlanFor, Expected, SnapshotOf;
      raised, ev := None, [];
      Nothing();
      var todo := writtenNames;
      while todo != {}
        invariant transport.trace == old(transport.trace) + ev && AllLegit(transport.trace) && Quiet(ev)
        invariant todo <= writtenNames
        invariant AllOwned(ev, writtenNames - todo, plan.value, reviewed)
        decreases |todo|
      {
        var name :| name in todo;
        var current, more := transport.ReadFile(name);
        assert name in Changes() && name in plan.value && snapshot.Some?;
        ghost var before := ev;
        Joined(ev, more);
        ev := ev + more;
        if current.Failure? {
          return Some(current.error), ev;
        }
        var original := if name in snapshot.value.configFiles then Some(snapshot.value.configFiles[name]) else None;
        var owned := RollbackFileOwned(current.value, original, plan.value[name].content);
        if owned.Failure? {
          return Some(owned.error), ev;
        }
        OriginalOf(name, original);
        OwnedStep(before, more, writtenNames - todo, name, current.value, plan.value, reviewed);
        todo := todo - {name};
      }
    }

    /** True only if every written file was just read equal to its original. */
    method VerifyRestoration() returns (raised: Option<Exn>, ghost ev: Trace)
      requires Snapshotted() && writtenNames != {} && AllLegit(transport.trace)
      modifies transport
      ensures transport.trace == old(transport.trace) + ev && AllLegit(transport.trace) && Quiet(ev)
      ensures raised.None? ==> AllSeen(ev, writtenNames, reviewed)
    {
      var current;
      current, ev := transport.ReadFiles(writtenNames);
      if current.Failure? {
        return Some(current.error), ev;
      }
      var restored := VerifySnapshotRestored(snapshot.value, current.value, writtenNames);
      raised := if restored then None else Some(OtherFailure);
      forall name | name in writtenNames && restored ensures Saw(ev, name, reviewed[name]) {
        SnapshotRecordsOriginals(Originals(), name, current.value[name]);
      }
    }

    /**
      Reads and restarts, never writes.  `Some(true)` is only answered when every written file was
      read back as its original; the one exception that passes through is the interrupt.
     */
    method Rollback() returns (r: Result<Option<bool>, Exn>, ghost ev: Trace)
      requires writtenNames != {} ==> Snapshotted()
      requires AllLegit(transport.trace)
      modifies transport
      ensures transport.trace == old(transport.trace) + ev && AllLegit(transport.trace) && Quiet(ev)
      ensures r == Success(None) <==> writtenNames == {}
      ensures r == Success(Some(true)) ==>
        RollbackEvidence(ev, writtenNames, plan.value, reviewed, activation, MoonrakerConf in Changes())
      ensures r.Failure? ==> r.error == Interrupt
    {
      hide RecoveryEvidence, AllOwned, AllSeen, AllLegit;
      if writtenNames == {} {
        return Success(None), [];
      }
      assert snapshot.Some?;
      var raised;
      raised, ev := DiagnoseOwnership();
      if raised.Some? {
        return if raised.value == Interrupt then Failure(Interrupt) else Success(Some(false)), ev;
      }
      ghost var owned, looked, recovery := ev, [], [];
      raised, looked := VerifyRestoration();
      ev := owned + looked;
      if raised.Some? {
        return if raised.value == Interrupt then Failure(Interrupt) else Success(Some(false)), ev;
      }
      var recovered;
      recovered, recovery := Recover();
      ev := owned + looked + recovery;
      if recovered.Failure? {
        return if recovered.error == Interrupt then Failure(Interrupt) else Success(Some(false)), ev;
      }
      assert ev == [] + owned + looked + recovery;
      r := Success(Some(recovered.value));
    }

    /** Moonraker restarted, and back online twice. */
    method RestartMoonrakerFirst() returns (r: Result<bool, Exn>, ghost ev: Trace)
      requires AllLegit(transport.trace)
      modifies transport
      ensures transport.trace == old(transport.trace) + ev && AllLegit(transport.trace) && Quiet(ev)
      ensures r == Success(true) ==>
        && |ev| > 2 && ev[0].call == RestartMoonraker && NoRestart(ev[1..])
        && ev[|ev| - 2].call == Online(true) && ev[|ev| - 1].call == Online(true)
    {
      hide AllLegit, Quiet, NoRestart;
      var raised;
      raised, ev := transport.Perform(RestartMoonraker);
      if raised.Some? {
        return Failure(raised.value), ev;
      }
      ghost var restart, more := ev, [];
      r, more := WaitMoonraker();
      Joined(restart, more);
      ev := restart + more;
      assert ev[1..] == more;
    }

    /** Moonraker if its configuration is concerned, then Klipper, then two Ready samples. */
    method Reactivate(moonraker: bool) returns (r: Result<bool, Exn>, ghost restarts: Trace, ghost ready: Trace)
      requires AllLegit(transport.trace)
      modifies transport
      ensures transport.trace == old(transport.trace) + restarts + ready && AllLegit(transport.trace)
      ensures Quiet(restarts) && Quiet(ready)
      ensures r == Success(true) ==>
        && TwoReadySamples(ready) && NeverDown(ready)
        && Restarts(restarts, activation, moonraker)
    {
      hide AllLegit, TwoReadySamples, NoRestart, Restarts;
      restarts, ready := [], [];
      var raised;
      ghost var more;
      if moonraker {
        var online;
        online, restarts := RestartMoonrakerFirst();
        if online != Success(true) {
          return online, restarts, [];
        }
      }
      ghost var before := restarts;
      raised, more := transport.Perform(Restart(activation));
      restarts := restarts + more;
      if raised.Some? {
        return Failure(raised.value), restarts, [];
      }
      ghost var e := more[0];
      r, more := WaitReady();
      ready := more;
      if r == Success(true) {
        ghost var polls := more[..|more| - 4];
        assert NoRestart(polls) by { NoRestartPrefix(more, |more| - 4); }
        RestartedAt(before, e, polls, activation, moonraker);
        restarts, ready := before + [e] + polls, more[|more| - 4..];
        assert restarts + ready == before + [e] + more;
      }
    }

    /** Brings the printer back up on restored files, which are read again at the end. */
    method Recover() returns (r: Result<bool, Exn>, ghost ev: Trace)
      requires Snapshotted() && writtenNames != {} && AllLegit(transport.trace)
      modifies transport
      ensures transport.trace == old(transport.trace) + ev && AllLegit(transport.trace) && Quiet(ev)
      ensures r == Success(true) ==> RecoveryEvidence(ev, writtenNames, reviewed, activation, MoonrakerConf in Changes())
    {
      hide AllLegit, TwoReadySamples, Restarts, AllSeen;
      var raised;
      raised, ev := VerifyRestoration();
      if raised.Some? {
        return Failure(raised.value), ev;
      }
      ghost var moonraker, again := MoonrakerConf in Changes(), ev;
      if activation == NoActivation {
        assert ev == again + [] + [] + [];
        assert RecoveryParts(ev, writtenNames, reviewed, activation, moonraker, again, [], [], []);
        return Success(true), ev;
      }
      ghost var restarts, ready, last;
      r, restarts, ready :=
        Reactivate(MoonrakerConf in snapshot.value.configFiles || MoonrakerConf in snapshot.value.missing);
      ev := again + restarts + ready;
      if r == Success(true) {
        raised, last := VerifyRestoration();
        ev := again + restarts + ready + last;
        r := if raised.Some? then Failure(raised.value) else Success(true);
        assert raised.None? ==>
          RecoveryParts(ev, writtenNames, reviewed, activation, moonraker, again, restarts, ready, last);
      }
    }

    // ----- the run -----

    /** The firmware, and that the printer runs the configuration that is there; an offline target runs none. */
    method CheckRunning() returns (raised: Option<Exn>, ghost ev: Trace)
      requires AllLegit(transport.trace)
      modifies transport
      ensures transport.trace == old(transport.trace) + ev && AllLegit(transport.trace) && Quiet(ev) && NoRestart(ev)
      ensures raised.None? && verifiesFirmware ==> Called(ev, FirmwareVerified)
      ensures raised.None? && transport.kind != OfflineLocal ==> Called(ev, ActiveConfigVerified)
    {
      hide AllLegit;
      raised, ev := VerifyFirmware();
      if raised.None? && transport.kind != OfflineLocal {
        ghost var checks, active := ev, [];
        raised, active := transport.Perform(ActiveConfigVerified);
        CalledAppend(checks, active);
        ev := checks + active;
      }
    }

    /** The files already match: prove that the running printer uses them. */
    method CommitExisting() returns (raised: Option<Exn>, ghost ev: Trace)
      requires Planned() && Changes() == {} && verifyExistingReady && AllLegit(transport.trace)
      modifies transport
      ensures transport.trace == old(transport.trace) + ev && AllLegit(transport.trace) && Quiet(ev)
      ensures raised.None? ==> ActivationEvidence(ev, plan.value, reviewed, CommitTerms())
    {
      ghost var planned := plan.value;
      hide AllLegit, TwoReadySamples, Planned, Called, NeverDown;
      var ready;
      ready, ev := WaitReady();
      if ready != Success(true) {
        return Some(if ready.Failure? then ready.error else OtherFailure), ev;
      }
      ghost var waiting, samples := ev[..|ev| - 4], ev[|ev| - 4..];
      ghost var checks, last := [], [];
      raised, checks := CheckRunning();
      ev := ev + checks;
      if raised.Some? {
        return;
      }
      raised, last := VerifyPlan();
      ev := ev + last;
      assert ev == waiting + samples + checks + last;
      assert raised.None? ==> ActivationParts(ev, planned, reviewed, CommitTerms(), waiting, samples, checks, last);
    }

    method Activate() returns (raised: Option<Exn>, ghost ev: Trace)
      requires Planned() && AllLegit(transport.trace)
      requires !(Changes() == {} && verifyExistingReady)
      modifies transport
      ensures transport.trace == old(transport.trace) + ev && AllLegit(transport.trace) && Quiet(ev)
      ensures raised.None? ==> ActivationEvidence(ev, plan.value, reviewed, CommitTerms())
    {
      hide AllLegit, TwoReadySamples, Called, Restarts, NoRestart;
      raised, ev := transport.Perform(ValidateTarget);
      if raised.Some? {
        return;
      }
      var ready;
      ghost var target, restarts, samples, checks, last := ev, [], [], [], [];
      ready, restarts, samples := Reactivate(MoonrakerConf in ChangedNames(plan.value));
      ev := ev + restarts + samples;
      if ready != Success(true) {
        return Some(if ready.Failure? then ready.error else OtherFailure), ev;
      }
      raised, checks := VerifyFirmware();
      ev := ev + checks;
      if raised.Some? {
        return;
      }
      raised, last := VerifyPlan();
      ev := ev + last;
      assert (target + restarts)[1..] == restarts;
      assert ev == (target + restarts) + samples + checks + last;
      assert raised.None? ==>
        ActivationParts(ev, plan.value, reviewed, CommitTerms(), target + restarts, samples, checks, last);
    }

    method Publish(current: Contents) returns (r: Result<TxState, Exn>, ghost up: Trace, ghost post: Trace)
      requires Snapshotted() && writtenNames == {} && current == reviewed && AllLegit(transport.trace)
      requires forall name :: name in Changes() ==> SupportsConditionalWrite(transport.kind, reviewed[name])
      modifies transport, this`writtenNames
      ensures transport.trace == old(transport.trace) + up + post && AllLegit(transport.trace)
      ensures writtenNames <= Changes() && Quiet(post)
      ensures UploadsSound(up, plan.value, reviewed, transport.kind, writtenNames)
      ensures r.Success? ==>
        && Uploading(up, {}, plan.value, reviewed, transport.kind, writtenNames)
        && r.value in {Committed, PendingActivation} && Installed(up, plan.value, reviewed)
      ensures r == Success(Committed) ==>
        (CommitTerms().noop || activation != NoActivation) && CommitEvidence(post, plan.value, reviewed, CommitTerms())
      ensures r == Success(PendingActivation) ==>
        !CommitTerms().noop && activation == NoActivation && IsVerification(post, plan.value, reviewed)
    {
      hide UploadsSound, Uploading, Legit, IsVerification, ActivationEvidence;
      var raised;
      raised, up := UploadAll(current);
      post := [];
      if raised.Some? {
        return Failure(raised.value), up, [];
      }
      UploadedAll(up, plan.value, reviewed, transport.kind, writtenNames);
      raised, post := VerifyPlan();
      if raised.Some? {
        return Failure(raised.value), up, post;
      }
      ghost var verified, rest := post, [];
      if ChangedNames(plan.value) == {} && verifyExistingReady {
        raised, rest := CommitExisting();
      } else if activation == NoActivation {
        return Success(PendingActivation), up, post;
      } else {
        raised, rest := Activate();
      }
      post := verified + rest;
      r := if raised.Some? then Failure(raised.value) else Success(Committed);
    }

    /** The plan was not published as wished: keep the proposal, then see what can be said of the files. */
    method AfterFailure(failed: Exn, ghost up: Trace) returns (r: Result<TxResult, Exn>, ghost ev: Trace)
      requires Snapshotted() && proposalLost.None? && AllLegit(transport.trace)
      requires WriteSetSound(up, writtenNames, reviewed)
      modifies transport, this`proposalLost, this`preserved
      ensures transport.trace == old(transport.trace) + ev && AllLegit(transport.trace) && Quiet(ev)
      ensures r.Success? ==> proposalLost.None? && preserved
      ensures r.Success? ==> r.value.state in {RollbackFailed, ApplyFailed, FirmwareFailed}
      ensures r.Success? ==> (r.value.state == RollbackFailed <==> r.value.rollback == Some(false))
      ensures r.Success? && r.value.state != RollbackFailed ==>
        && AllRestored(up + ev, reviewed)
        && (r.value.rollback.Some? ==>
              RollbackEvidence(ev, writtenNames, plan.value, reviewed, activation, MoonrakerConf in Changes()))
        && (r.value.rollback.None? ==> writtenNames == {})
        && (r.value.state == FirmwareFailed <==> failed == FirmwareMismatch)
      ensures r.Failure? && r.error != Interrupt ==> proposalLost == Some(r.error)
      ensures r.Failure? && r.error == Interrupt ==> proposalLost in {None, Some(Interrupt)}
    {
      hide RollbackEvidence;
      var lost := PreserveProposal();
      proposalLost := lost;
      if lost.Some? {
        return Failure(lost.value), [];
      }
      var rollback;
      rollback, ev := Rollback();
      if rollback.Failure? {
        return Failure(rollback.error), ev;
      }
      var state := if failed == FirmwareMismatch then FirmwareFailed else ApplyFailed;
      if rollback.value.Some? && rollback.value.value {
        assert rollback == Success(Some(true));
        RolledBackSaw(ev, writtenNames, plan.value, reviewed, activation, MoonrakerConf in Changes());
      }
      RestoredAfterRollback(up, ev, writtenNames, reviewed, rollback.value);
      r := Success(TxResult(if rollback.value == Some(false) then RollbackFailed else state, rollback.value));
    }

    method Preflight(reviewAtOnce: bool) returns (r: Result<(Verdict, Contents), Exn>, ghost pre: Trace)
      requires Fresh() && AllLegit(transport.trace)
      modifies transport, this`plan, this`expectedConfigState, this`answer, this`reviewed, this`validations, this`preserved
      ensures transport.trace == old(transport.trace) + pre && AllLegit(transport.trace) && Quiet(pre)
      ensures r.Success? ==>
        && Planned() && r.value.1 == reviewed && Revalidation(pre, reviewed)
        && Root in reviewed && CompleteBaseline(inc, Seeds(generatedHardware, generatedMacros, reviewed[Root]), reviewed)
      ensures r.Success? ==> forall name :: name in Changes() ==> SupportsConditionalWrite(transport.kind, reviewed[name])
      ensures if reviewAtOnce then r.Success? ==> answer.Some? && (r.value.0 != Invalid ==> answer == Some(r.value.0 == Reviewed))
              else answer.None? && (r.Success? ==> r.value.0 != Declined)
      ensures r.Failure? ==> answer.None?
      ensures r.Success? ==> validations == [r.value.0 != Invalid]
    {
      hide CompleteBaseline, Evidence, PlanFor, Expected, AllLegit, Quiet;
      Nothing();
      var raised := MayRaise();   // the validators of the generated files
      if raised.Some? {
        return Failure(raised.value), [];
      }
      raised, pre := transport.Perform(ValidateTarget);
      if raised.Some? {
        return Failure(raised.value), pre;
      }
      var remote;
      ghost var target, more := pre, [];
      remote, more := ReadConfigState(transport, inc, generatedHardware, generatedMacros);
      Joined(more, []);
      Joined(pre, more);
      pre := pre + more;
      if remote.Failure? {
        return Failure(remote.error), pre;
      }
      reviewed := remote.value;
      assert (target + more)[1..] == more;
      var built := BuildPlan(remote.value);
      if built.Failure? {
        return Failure(built.error), pre;
      }
      plan := Some(built.value);
      expectedConfigState := Expected(built.value, remote.value);
      raised := MayRaise();       // validation with the included files, diff and review construction
      if raised.Some? {
        return Failure(raised.value), pre;
      }
      raised := RequireConditionalWrites();
      if raised.Some? {
        return Failure(raised.value), pre;
      }
      var accepted := true;
      if reviewAtOnce {
        var answer := Ask();
        if answer.Failure? {
          return Failure(answer.error), pre;
        }
        accepted := answer.value;
      }
      var valid := Validate();
      r := Success((if !valid then Invalid else if accepted then Reviewed else Declined, remote.value));
    }

    /** Activation mode, a second look at every reviewed file, and the durable snapshot. */
    method Secure(selectsActivation: bool, remote: Contents) returns (r: Result<(), Exn>, ghost pre: Trace)
      requires Planned() && remote == reviewed && snapshot.None? && writtenNames == {} && AllLegit(transport.trace)
      modifies transport, this`activation, this`snapshot, this`preserved
      ensures transport.trace == old(transport.trace) + pre && AllLegit(transport.trace) && Quiet(pre)
      ensures r.Success? ==> Snapshotted() && Revalidation(pre, reviewed)
      ensures r.Success? ==> forall name :: name in Changes() ==> SupportsConditionalWrite(transport.kind, reviewed[name])
    {
      hide Legit, Revalidation, Quiet, Expected;
      pre := [];
      assert Quiet(pre) by { QuietEmpty(); }
      if selectsActivation && (ChangedNames(plan.value) != {} || !verifyExistingReady) {
        var raised := MayRaise();
        if raised.Some? {
          return Failure(raised.value), [];
        }
        activation := *;
      }
      var raised;
      raised, pre := RevalidateConfigState(remote);
      if raised.Some? {
        return Failure(raised.value), pre;
      }
      raised := RequireConditionalWrites();
      if raised.Some? {
        return Failure(raised.value), pre;
      }
      var originals: Contents := map name | name in ChangedNames(plan.value) :: remote[name];
      if originals != map[] {
        var made := CreateSnapshot(originals);
        if made.Failure? {
          return Failure(made.error), pre;
        }
        snapshot := Some(made.value);
      }
      assert originals == Originals() && originals.Keys == Changes();
      r := Success(());
    }

    /** The last look before the first write: nothing was written when it fails. */
    method Recheck(current: Contents) returns (raised: Option<Exn>, ghost pre: Trace)
      requires AllLegit(transport.trace)
      modifies transport, this`validations
      ensures transport.trace == old(transport.trace) + pre && AllLegit(transport.trace) && Quiet(pre)
      ensures raised.None? ==>
        Revalidation(pre, current) && validations == old(validations) + (if reviewBeforehand then [true] else [])
      ensures old(validations) <= validations
    {
      raised, pre := RevalidateConfigState(current);
      if raised.None? && reviewBeforehand {
        raised := MayRaise();
        if raised.None? {
          var valid := Validate();
          raised := if valid then None else Some(Conflict);
        }
      }
    }

    /** The plan was found valid, and again right before the first write when that is asked for. */
    ghost predicate Validated()
      reads this
    {
      validations == [true] + if reviewBeforehand then [true] else []
    }

    /** What was reviewed is everything that the planned configuration can reach. */
    ghost predicate Baseline()
      reads this
    {
      && Root in reviewed
      && CompleteBaseline(inc, Seeds(generatedHardware, generatedMacros, reviewed[Root]), reviewed)
    }

    /** The claims about what was written and what came of it. */
    ghost predicate PublishClaims(state: Option<TxState>, up: Trace, post: Trace)
      reads this
    {
      && Quiet(post)
      && (plan.Some? ==> UploadsSound(up, plan.value, reviewed, transport.kind, writtenNames))
      && (state == Some(Committed) ==>
          && Planned() && Uploading(up, {}, plan.value, reviewed, transport.kind, writtenNames)
          && Installed(up, plan.value, reviewed) && (CommitTerms().noop || activation != NoActivation)
          && CommitEvidence(post, plan.value, reviewed, CommitTerms()))
      && (state == Some(PendingActivation) ==>
          && Planned() && Uploading(up, {}, plan.value, reviewed, transport.kind, writtenNames)
          && Installed(up, plan.value, reviewed) && !CommitTerms().noop
          && activation == NoActivation && IsVerification(post, plan.value, reviewed))
      && (state == Some(SnapshotFailed) ==> up == [])
      && (state in {Some(Cancelled), Some(ApplyFailed), Some(FirmwareFailed)} ==> AllRestored(up + post, reviewed))
    }

    /** The claims about a run that came to an end; `None` is a run that raised. */
    ghost predicate RunClaims(state: Option<TxState>, pre: Trace, up: Trace, post: Trace)
      reads this
    {
      && Quiet(pre)
      && (up != [] ==>
          && Snapshotted() && answer == Some(true) && Validated() && ThriceSeen(pre, reviewed) && Baseline()
          && (forall name :: name in Changes() ==> SupportsConditionalWrite(transport.kind, reviewed[name])))
      && PublishClaims(state, up, post)
    }

    /** What a result says of the rollback that it reports. */
    ghost predicate RollbackClaims(result: TxResult, post: Trace)
      reads this
    {
      && (result.state == RollbackFailed <==> result.rollback == Some(false))
      && (result.rollback.Some? ==> result.state in {RollbackFailed, ApplyFailed, FirmwareFailed, Cancelled})
      && (result.rollback.None? && result.state in {ApplyFailed, FirmwareFailed} ==> writtenNames == {})
      && (result.rollback == Some(true) ==>
            plan.Some? && RollbackEvidence(post, writtenNames, plan.value, reviewed, activation, MoonrakerConf in Changes()))
    }

    /** A refusal before the first write: the proposal is kept for the operator. */
    method Refused(failed: Exn) returns (r: Result<Option<TxResult>, Exn>)
      requires failed != Interrupt
      modifies this`preserved
      ensures r.Success? && failed == Conflict ==> preserved
      ensures r.Success? ==> r.value == Some(TxResult(if failed == Conflict then PreconditionFailed else SnapshotFailed, None))
    {
      if failed != Conflict {
        return Success(Some(TxResult(SnapshotFailed, None)));
      }
      var lost := PreserveProposal();
      r := if lost.Some? then Failure(lost.value) else Success(Some(TxResult(PreconditionFailed, None)));
    }

    /** Everything before the first write; `None` means that the plan may be published. */
    method Prepare(reviewAtOnce: bool, selectsActivation: bool)
      returns (r: Result<Option<TxResult>, Exn>, remote: Contents, ghost pre: Trace)
      requires Fresh() && AllLegit(transport.trace)
      modifies transport, this
      ensures transport.trace == old(transport.trace) + pre && AllLegit(transport.trace) && Quiet(pre)
      ensures writtenNames == {} && proposalLost.None?
      ensures r.Success? && r.value.Some? ==>
        && r.value.value.state in {PreconditionFailed, Cancelled, SnapshotFailed} && r.value.value.rollback.None?
        && (r.value.value.state == Cancelled ==> answer == Some(false))
        && (r.value.value.state == PreconditionFailed && answer == Some(true) && |validations| > 0 && validations[0] ==> preserved)
      ensures answer.Some? ==> |validations| > 0
      ensures answer == Some(false) ==>
        r.Success? && r.value.Some? && r.value.value.state == if validations[0] then Cancelled else PreconditionFailed
      ensures r == Success(None) ==>
        && Snapshotted() && answer == Some(true) && Validated() && remote == reviewed && ThriceSeen(pre, reviewed) && Baseline()
        && forall name :: name in Changes() ==> SupportsConditionalWrite(transport.kind, reviewed[name])
    {
      hide Revalidation, Legit, CompleteBaseline, Expected, PlanFor, Quiet, SnapshotOf;
      remote := map[];
      var preflight;
      preflight, pre := Preflight(reviewAtOnce);
      if preflight.Failure? {
        r := if preflight.error == Interrupt then Failure(Interrupt) else Success(Some(TxResult(PreconditionFailed, None)));
        return;
      }
      var verdict;
      verdict, remote := preflight.value.0, preflight.value.1;
      if verdict == Invalid {
        return Success(Some(TxResult(PreconditionFailed, None))), remote, pre;
      }
      var accepted: Result<bool, Exn> := Success(verdict == Reviewed);
      if !reviewAtOnce {
        accepted := Ask();
      }
      if accepted.Success? && !accepted.value {
        return Success(Some(TxResult(Cancelled, None))), remote, pre;
      }
      ghost var first, second, more := pre, [], [];
      var secured: Result<(), Exn> := Success(());
      if accepted.Failure? {
        secured := Failure(accepted.error);
      } else {
        secured, second := Secure(selectsActivation, remote);
        QuietAppend(pre, second);
        pre := pre + second;
      }
      if secured.Failure? {
        if secured.error == Interrupt {
          return Failure(Interrupt), remote, pre;
        }
        r := Refused(secured.error);
        return;
      }
      var raised;
      raised, more := Recheck(remote);
      QuietAppend(pre, more);
      pre := pre + more;
      if raised.Some? {
        r := Failure(raised.value);
        if raised.value == Conflict {
          r := Refused(raised.value);
        }
        return;
      }
      assert ThreeLooks(pre, reviewed, first, second, more);
      r := Success(None);
    }

    /** From the first write on: published and activated, or what the failure left. */
    method Execute(remote: Contents) returns (r: Result<TxResult, Exn>, ghost up: Trace, ghost post: Trace)
      requires Snapshotted() && writtenNames == {} && remote == reviewed && proposalLost.None? && AllLegit(transport.trace)
      requires forall name :: name in Changes() ==> SupportsConditionalWrite(transport.kind, reviewed[name])
      modifies transport, this`writtenNames, this`proposalLost, this`preserved
      ensures transport.trace == old(transport.trace) + up + post && AllLegit(transport.trace)
      ensures Snapshotted() && (writtenNames != {} ==> up != [])
      ensures PublishClaims(if r.Success? then Some(r.value.state) else None, up, post)
      ensures r.Success? ==>
        && proposalLost.None? && RollbackClaims(r.value, post) && (r.value.state in {Committed, PendingActivation} || preserved)
        && r.value.state in {Committed, PendingActivation, RollbackFailed, ApplyFailed, FirmwareFailed}
      ensures r.Failure? && r.error != Interrupt ==> proposalLost == Some(r.error)
      ensures r.Failure? && r.error == Interrupt ==> proposalLost in {None, Some(Interrupt)}
    {
      hide Uploading, UploadsSound, Legit, AllRestored, CommitEvidence, RollbackEvidence, IsVerification, Installed;
      hide PlanFor, Expected, SnapshotOf;
      var published;
      published, up, post := Publish(remote);
      UploadedSound(up, post, plan.value, reviewed, transport.kind, writtenNames);
      if published.Success? {
        return Success(TxResult(published.value, None)), up, post;
      }
      if published.error == Interrupt {
        return Failure(Interrupt), up, post;
      }
      ghost var done, more := post, [];
      r, more := AfterFailure(published.error, up + done);
      post := done + more;
      if r.Success? && r.value.rollback == Some(true) {
        RollbackLater(done, more, writtenNames, plan.value, reviewed, activation, MoonrakerConf in Changes());
      }
      QuietAppend(done, more);
      assert up + post == up + done + more;
    }

    method RunLocked(reviewAtOnce: bool, selectsActivation: bool)
      returns (r: Result<TxResult, Exn>, ghost pre: Trace, ghost up: Trace, ghost post: Trace)
      requires Fresh() && AllLegit(transport.trace)
      modifies transport, this
      ensures transport.trace == old(transport.trace) + pre + up + post && AllLegit(transport.trace)
      ensures writtenNames != {} ==> Snapshotted() && up != []
      ensures RunClaims(if r.Success? then Some(r.value.state) else None, pre, up, post)
      ensures r.Success? ==> proposalLost.None? && (r.value.state == PreconditionFailed ==> up == [])
      ensures r.Success? ==> RollbackClaims(r.value, post)
      ensures r.Success? && r.value.state == Cancelled ==> answer == Some(false)
      ensures answer.Some? ==> |validations| > 0
      ensures answer == Some(false) ==>
        r.Success? && r.value.state == if validations[0] then Cancelled else PreconditionFailed
      ensures r.Success? && answer == Some(true) && validations[0] ==>
        r.value.state in {PreconditionFailed, ApplyFailed, FirmwareFailed, RollbackFailed} ==> preserved
      ensures r.Failure? && r.error != Interrupt && up != [] ==> proposalLost == Some(r.error)
      ensures r.Failure? && r.error == Interrupt ==> proposalLost in {None, Some(Interrupt)}
    {
      hide Uploading, UploadsSound, ThriceSeen, CompleteBaseline, Legit, AllRestored;
      hide CommitEvidence, RollbackEvidence, IsVerification, Installed;
      up, post := [], [];
      var prepared, remote;
      prepared, remote, pre := Prepare(reviewAtOnce, selectsActivation);
      NothingUploaded(if plan.Some? then plan.value else map[], reviewed, transport.kind);
      if prepared.Failure? {
        return Failure(prepared.error), pre, [], [];
      }
      if prepared.value.Some? {
        return Success(prepared.value.value), pre, [], [];
      }
      r, up, post := Execute(remote);
    }

    /** Taking or releasing the lock of a destination that other KACE processes share; most have none. */
    method LockCall() returns (raised: Option<Exn>)
      ensures raised.Some? ==> transport.kind == LocalMoonraker
    {
      raised := None;
      if transport.kind == LocalMoonraker {
        raised := MayRaise();
      }
    }

    /** An interrupt: what was written is looked at, and the run is cancelled if nothing of it is left. */
    method Interrupted(ghost up: Trace, ghost past: Trace) returns (result: TxResult, ghost ev: Trace)
      requires AllLegit(transport.trace) && Quiet(past)
      requires writtenNames != {} ==> Snapshotted()
      requires plan.Some? ==> UploadsSound(up, plan.value, reviewed, transport.kind, writtenNames)
      requires plan.None? ==> up == [] && writtenNames == {}
      modifies transport
      ensures transport.trace == old(transport.trace) + ev && AllLegit(transport.trace) && Quiet(ev)
      ensures result.state in {Cancelled, RollbackFailed}
      ensures result.state == Cancelled ==> AllRestored(up + (past + ev), reviewed)
      ensures result.state == RollbackFailed <==> result.rollback == Some(false)
      ensures result.rollback.None? <==> writtenNames == {}
      ensures result.rollback == Some(true) ==>
        && RollbackEvidence(ev, writtenNames, plan.value, reviewed, activation, MoonrakerConf in Changes())
        && RollbackEvidence(past + ev, writtenNames, plan.value, reviewed, activation, MoonrakerConf in Changes())
      ensures Quiet(past + ev)
    {
      hide UploadsSound, Legit, AllRestored, RollbackEvidence;
      ev := [];
      QuietEmpty();
      var restored: Option<bool> := None;
      if writtenNames != {} {
        var rollback;
        rollback, ev := Rollback();
        restored := if rollback.Failure? then Some(false) else rollback.value;
        if restored == Some(true) {
          RolledBackSaw(ev, writtenNames, plan.value, reviewed, activation, MoonrakerConf in Changes());
          RollbackLater(past, ev, writtenNames, plan.value, reviewed, activation, MoonrakerConf in Changes());
        }
      }
      QuietAppend(past, ev);
      if plan.Some? {
        InterruptedRestored(up, past, ev, plan.value, reviewed, transport.kind, writtenNames, restored);
      } else {
        QuietRestored(past + ev, reviewed);
      }
      result := TxResult(if restored == Some(false) then RollbackFailed else Cancelled, restored);
    }

    /** The run between taking and releasing the lock of the destination. */
    method RunUnderLock(reviewAtOnce: bool, selectsActivation: bool)
      returns (r: Result<TxResult, Exn>, ghost pre: Trace, ghost up: Trace, ghost post: Trace,
               ghost locked: Result<TxResult, Exn>, ghost lost: Option<Exn>)
      requires Fresh() && AllLegit(transport.trace)
      modifies transport, this
      ensures transport.trace == old(transport.trace) + pre + up + post && AllLegit(transport.trace)
      ensures writtenNames != {} ==> Snapshotted() && up != []
      ensures RunClaims(if r.Success? then Some(r.value.state) else None, pre, up, post)
      ensures lost.Some? ==> transport.kind == LocalMoonraker
      ensures r == Ended(locked, lost) || (r.Failure? && pre == up == post == [] && Ended(locked, lost) == Failure(Interrupt))
      ensures r.Success? ==> RollbackClaims(r.value, post) && (r.value.state == Cancelled ==> answer == Some(false))
      ensures r.Success? && up != [] ==> proposalLost.None? && r.value.state != PreconditionFailed
      ensures r.Failure? && up != [] && lost.None? ==>
        if r.error == Interrupt then proposalLost in {None, Some(Interrupt)} else proposalLost == Some(r.error)
    {
      hide Uploading, UploadsSound, ThriceSeen, CompleteBaseline, Legit, AllRestored;
      hide CommitEvidence, RollbackEvidence, IsVerification, Installed;
      hide PlanFor, Expected, SnapshotOf;
      pre, up, post := [], [], [];
      locked, lost := Failure(Interrupt), None;
      NothingUploaded(map[], map[], transport.kind);
      var raised := LockCall();
      if raised.Some? {
        return Failure(raised.value), [], [], [], locked, lost;
      }
      r, pre, up, post := RunLocked(reviewAtOnce, selectsActivation);
      locked := r;
      raised := LockCall();
      lost := raised;
      if raised.Some? {
        r := Failure(raised.value);
      }
    }

    /**
      One run.  A result is one of the states below; `Failure` is an exception that leaves `run`.
      `locked` is what happened under the locks, `lost` an error on releasing the destination lock,
      which replaces it.  A refused precondition means that nothing was uploaded, unless after writes
      had begun the proposal could not be preserved or that lock could not be released.
     */
    method Run(reviewAtOnce: bool, selectsActivation: bool)
      returns (r: Result<TxResult, Exn>, ghost pre: Trace, ghost up: Trace, ghost post: Trace,
               ghost locked: Result<TxResult, Exn>, ghost lost: Option<Exn>)
      requires Fresh() && AllLegit(transport.trace)
      modifies transport, this
      ensures transport.trace == old(transport.trace) + pre + up + post && AllLegit(transport.trace)
      ensures RunClaims(if r.Success? then Some(r.value.state) else None, pre, up, post)
      ensures r.Success? ==> RollbackClaims(r.value, post)
      ensures r.Success? && r.value.state == Cancelled ==> answer == Some(false) || Ended(locked, lost) == Failure(Interrupt)
      ensures lost.Some? ==> transport.kind == LocalMoonraker
      ensures up != [] && Ended(locked, lost) != Failure(Interrupt) ==> r == Reported(locked, lost)
      ensures r.Success? && up != [] ==>
        (r.value.state == PreconditionFailed <==>
         (if lost.Some? then lost.value else proposalLost.GetOr(Interrupt)) in {Conflict, OsFailure})
      ensures r.Failure? && up != [] ==>
        && r.error in {FirmwareMismatch, OtherFailure}
        && (if lost.Some? then lost else proposalLost) == Some(r.error)
      ensures r.Failure? && r.error == Interrupt ==> pre == up == post == []
    {
      hide Uploading, UploadsSound, ThriceSeen, CompleteBaseline, Legit, AllRestored;
      hide CommitEvidence, RollbackEvidence, IsVerification, Installed;
      hide PlanFor, Expected, SnapshotOf;
      pre, up, post := [], [], [];
      locked, lost := Failure(Interrupt), None;
      NothingUploaded(map[], map[], transport.kind);
      var raised := MayRaise();     // the destination is identified
      if raised.Some? {
        if raised.value == Interrupt {
          return Failure(Interrupt), [], [], [], locked, lost;
        }
        return Success(TxResult(PreconditionFailed, None)), [], [], [], locked, lost;
      }
      r, pre, up, post, locked, lost := RunUnderLock(reviewAtOnce, selectsActivation);
      if r.Failure? && r.error == Interrupt {
        var result;
        ghost var ev;
        result, ev := Interrupted(up, post);
        post := post + ev;
        r := Success(result);
      } else if r.Failure? && r.error in {OsFailure, Conflict} {
        r := Success(TxResult(PreconditionFailed, None));
      }
    }
  }

  /** How the locked part ended, as its caller sees it: an error on release takes the place of a result. */
  function Ended(locked: Result<TxResult, Exn>, lost: Option<Exn>): Result<TxResult, Exn> {
    if lost.Some? then Failure(lost.value) else locked
  }

  /** What the run reports of it, when it was not interrupted. */
  function Reported(locked: Result<TxResult, Exn>, lost: Option<Exn>): Result<TxResult, Exn> {
    var ended := Ended(locked, lost);
    if ended.Failure? && ended.error in {OsFailure, Conflict} then Success(TxResult(PreconditionFailed, None)) else ended
  }

  const OLD_ROOT: Store := map[Root := [0]]
  const NEW_ROOT: Store := map[Root := [1]]
  const ROOT_PLAN: Plan := map[Root := Artifact([1], Some([0]))]
  const ROOT_REVIEWED: Contents := map[Root := Some([0])]

  /** One changed root, revalidated and uploaded. */
  const ROOT_UPLOADED: Trace := [Event(OLD_ROOT, ValidateTarget, OLD_ROOT), Event(OLD_ROOT, ReadOne(Root, Some([0])), OLD_ROOT),
                                 Event(OLD_ROOT, Upload(Root, [1], Some([0]), true, false), NEW_ROOT)]

  /** Its activation: a restart, two samples and a last read. */
  const READY_SAMPLES: Trace := [Event(NEW_ROOT, Online(true), NEW_ROOT), Event(NEW_ROOT, State(Ready), NEW_ROOT),
                                 Event(NEW_ROOT, Online(true), NEW_ROOT), Event(NEW_ROOT, State(Ready), NEW_ROOT)]
  const RESTARTED: Trace := [Event(NEW_ROOT, ValidateTarget, NEW_ROOT), Event(NEW_ROOT, Restart(FirmwareRestart), NEW_ROOT)]
  const LAST_READ: Trace := [Event(NEW_ROOT, ValidateTarget, NEW_ROOT), Event(NEW_ROOT, ReadOne(Root, Some([1])), NEW_ROOT)]

  /**
    A run that an error on release relabels: the trace has all the evidence of a commit and leaves the
    planned root in place, and what is reported is a refused precondition.
   */
  lemma CommittedRunIsRelabelled()
    ensures var up, post := ROOT_UPLOADED, LAST_READ + (RESTARTED + READY_SAMPLES + LAST_READ);
      && AllLegit(up + post) && post[|post| - 1].after == NEW_ROOT
      && UploadsSound(up, ROOT_PLAN, ROOT_REVIEWED, LocalMoonraker, {Root})
      && CommitEvidence(post, ROOT_PLAN, ROOT_REVIEWED, Terms(FirmwareRestart, false, false, false, true))
    ensures Reported(Success(TxResult(Committed, None)), Some(OsFailure)) == Success(TxResult(PreconditionFailed, None))
    ensures Reported(Failure(OsFailure), None) == Success(TxResult(PreconditionFailed, None))
  {
    hide UploadsSound, CommitEvidence;
    RootIsUploaded();
    RootIsCommitted();
  }

  lemma RootIsUploaded()
    ensures UploadsSound(ROOT_UPLOADED, ROOT_PLAN, ROOT_REVIEWED, LocalMoonraker, {Root})
  {
    var tr := ROOT_UPLOADED;
    assert Attempted(tr) == {Root} by { assert tr[2].call.Upload?; }
    assert LookedAt(tr, 2) by {
      assert tr[0..2][1..][0].call == ReadOne(Root, Some([0]));
      assert Revalidation(tr[0..2], map[Root := Some([0])]);
    }
  }

  lemma RootIsCommitted()
    ensures CommitEvidence(LAST_READ + (RESTARTED + READY_SAMPLES + LAST_READ), ROOT_PLAN, ROOT_REVIEWED,
                           Terms(FirmwareRestart, false, false, false, true))
  {
    var rest, terms := RESTARTED + READY_SAMPLES + LAST_READ, Terms(FirmwareRestart, false, false, false, true);
    assert IsVerification(LAST_READ, ROOT_PLAN, ROOT_REVIEWED) by {
      assert LAST_READ[1..][0].call == ReadOne(Root, Some([1]));
    }
    assert RestartsAt(RESTARTED[1..], 0, FirmwareRestart, false);
    assert rest == RESTARTED + READY_SAMPLES + [] + LAST_READ;
    assert ActivationParts(rest, ROOT_PLAN, ROOT_REVIEWED, terms, RESTARTED, READY_SAMPLES, [], LAST_READ);
    assert ActivationEvidence(rest, ROOT_PLAN, ROOT_REVIEWED, terms);
  }

  lemma RollbackLater(a: Trace, ev: Trace, names: set<Name>, plan: Plan, reviewed: Contents, mode: Mode, moonraker: bool)
    requires RollbackEvidence(ev, names, plan, reviewed, mode, moonraker)
    ensures RollbackEvidence(a + ev, names, plan, reviewed, mode, moonraker)
  {
    hide RecoveryEvidence, AllSeen, AllOwned;
    var past, owned, looked, recovery :|
      && ev == past + owned + looked + recovery
      && AllOwned(owned, names, plan, reviewed) && AllSeen(looked, names, reviewed)
      && RecoveryEvidence(recovery, names, reviewed, mode, moonraker);
    assert a + ev == (a + past) + owned + looked + recovery;
  }

  lemma RolledBackSaw(ev: Trace, names: set<Name>, plan: Plan, reviewed: Contents, mode: Mode, moonraker: bool)
    requires RollbackEvidence(ev, names, plan, reviewed, mode, moonraker)
    ensures AllSeen(ev, names, reviewed)
  {
    hide RecoveryEvidence, AllOwned;
    var past, owned, looked, recovery :|
      && ev == past + owned + looked + recovery
      && AllOwned(owned, names, plan, reviewed) && AllSeen(looked, names, reviewed)
      && RecoveryEvidence(recovery, names, reviewed, mode, moonraker);
    forall name | name in names ensures name in reviewed && Saw(ev, name, reviewed[name]) {
      SawExtends(looked, past + owned, recovery, name, reviewed[name]);
    }
  }

  lemma OwnedStep(ev: Trace, more: Trace, names: set<Name>, name: Name, current: Option<Bytes>, plan: Plan, reviewed: Contents)
    requires AllOwned(ev, names, plan, reviewed) && name in plan && name in reviewed
    requires |more| == 1 && more[0].call == ReadOne(name, current)
    requires current == reviewed[name] || current == Some(plan[name].content)
    ensures AllOwned(ev + more, names + {name}, plan, reviewed)
  {
    var tr := ev + more;
    assert tr[|ev|] == more[0] && Saw(tr, name, current);
    assert ev + more == [] + ev + more;
    forall other | other in names
      ensures other in plan && other in reviewed && (Saw(tr, other, reviewed[other]) || Saw(tr, other, Some(plan[other].content)))
    {
      var seen := if Saw(ev, other, reviewed[other]) then reviewed[other] else Some(plan[other].content);
      SawExtends(ev, [], more, other, seen);
    }
  }

  lemma RestoredAfterRollback(up: Trace, ev: Trace, written: set<Name>, reviewed: Contents, rollback: Option<bool>)
    requires WriteSetSound(up, written, reviewed) && Quiet(ev)
    requires written <= reviewed.Keys
    requires rollback == None ==> written == {}
    requires rollback == Some(true) ==> forall name :: name in written ==> Saw(ev, name, reviewed[name])
    ensures rollback != Some(false) ==> AllRestored(up + ev, reviewed)
  {
    QuietFrame(up, ev);
    if rollback != Some(false) {
      forall name | name in Attempted(up + ev) ensures name in reviewed && ReadBack(up + ev, name, reviewed[name]) {
        if name in written {
          assert rollback.Some? && rollback.value;
          assert Saw(ev, name, reviewed[name]);
        } else {
          assert ReadBack(up, name, reviewed[name]);
        }
      }
    }
  }

  lemma NothingUploaded(plan: Plan, reviewed: Contents, kind: Kind)
    ensures UploadsSound([], plan, reviewed, kind, {})
    ensures AllRestored([] + [], reviewed) && Quiet([])
  {
  }

  lemma QuietRestored(tr: Trace, reviewed: Contents)
    requires Quiet(tr)
    ensures AllRestored([] + tr, reviewed)
  {
  }

  lemma UploadedSound(up: Trace, post: Trace, plan: Plan, reviewed: Contents, kind: Kind, written: set<Name>)
    requires UploadsSound(up, plan, reviewed, kind, written) && Quiet(post)
    ensures WriteSetSound(up + post, written, reviewed)
    ensures written != {} ==> up != []
  {
    QuietFrame(up, post);
  }

  lemma InterruptedRestored(up: Trace, post: Trace, ev: Trace, plan: Plan, reviewed: Contents, kind: Kind,
                            written: set<Name>, rollback: Option<bool>)
    requires UploadsSound(up, plan, reviewed, kind, written) && Quiet(post) && Quiet(ev)
    requires written <= reviewed.Keys
    requires rollback == None ==> written == {}
    requires rollback == Some(true) ==> forall name :: name in written ==> Saw(ev, name, reviewed[name])
    ensures rollback != Some(false) ==> AllRestored(up + (post + ev), reviewed)
  {
    UploadedSound(up, post, plan, reviewed, kind, written);
    RestoredAfterRollback(up + post, ev, written, reviewed, rollback);
    assert up + post + ev == up + (post + ev);
  }

  lemma NoRestartPrefix(tr: Trace, n: nat)
    requires NoRestart(tr) && n <= |tr|
    ensures NoRestart(tr[..n])
  {
  }

  lemma RestartedAt(before: Trace, e: Event, polls: Trace, mode: Mode, moonraker: bool)
    requires e.call == Restart(mode) && NoRestart(polls)
    requires if moonraker then |before| > 2 && before[0].call == RestartMoonraker && NoRestart(before[1..])
                               && before[|before| - 2].call == Online(true) && before[|before| - 1].call == Online(true)
             else before == []
    ensures Restarts(before + [e] + polls, mode, moonraker)
  {
    var tr, i := before + [e] + polls, |before|;
    assert tr[i] == e && tr[i + 1..] == polls && (moonraker ==> tr[1..i] == before[1..]);
    assert RestartsAt(tr, i, mode, moonraker);
  }

  lemma CalledAppend(a: Trace, b: Trace)
    ensures forall call :: Called(a, call) ==> Called(a + b, call)
    ensures forall call :: Called(b, call) ==> Called(a + b, call)
  {
    forall call | Called(a, call) ensures Called(a + b, call) {
      var i :| 0 <= i < |a| && a[i].call == call;
      assert (a + b)[i] == a[i];
    }
    forall call | Called(b, call) ensures Called(a + b, call) {
      var i :| 0 <= i < |b| && b[i].call == call;
      assert (a + b)[|a| + i] == b[i];
    }
  }

  lemma EvidenceLater(a: Trace, b: Trace, contents: Contents)
    requires Evidence(b, contents)
    ensures Evidence(a + b, contents)
  {
    forall name | name in contents ensures Saw(a + b, name, contents[name]) {
      SawExtends(b, a, [], name, contents[name]);
      assert a + b + [] == a + b;
    }
  }

  lemma UploadedAll(up: Trace, plan: Plan, reviewed: Contents, kind: Kind, written: set<Name>)
    requires Uploading(up, {}, plan, reviewed, kind, written) && PlanFor(plan, reviewed)
    ensures Installed(up, plan, reviewed)
  {
    hide UploadsSound;
    forall name | name in plan && name in reviewed && reviewed[name] != Some(plan[name].content)
      ensures AppliedBefore(up, |up|, name)
    {
      assert name in ChangedNames(plan);
    }
  }

  /** Three looks are evidence of what was reviewed. */
  lemma SeenThrice(pre: Trace, reviewed: Contents)
    requires ThriceSeen(pre, reviewed)
    ensures Evidence(pre, reviewed) && Quiet(pre) && pre != []
  {
    var first, second, third :| ThreeLooks(pre, reviewed, first, second, third);
    assert Quiet(first) && Quiet(second) && Quiet(third);
    EvidenceLater(third[..1], third[1..], reviewed);
    assert third == third[..1] + third[1..];
    EvidenceLater(first + second, third, reviewed);
  }

  lemma UploadingSound(up: Trace, todo: set<Name>, plan: Plan, reviewed: Contents, kind: Kind, written: set<Name>)
    requires Uploading(up, todo, plan, reviewed, kind, written)
    ensures UploadsSound(up, plan, reviewed, kind, written)
  {
  }

  // ----- what the claims mean for the files -----

  /**
    No lost edit: wherever the run changed a file, it held the reviewed content at that moment and
    holds the planned one afterwards.
   */
  lemma NoLostExternalEdit(pre: Trace, up: Trace, post: Trace, plan: Plan, reviewed: Contents, kind: Kind,
                           i: nat, name: Name)
    requires AllLegit(pre + up + post) && Quiet(pre) && Quiet(post) && Conforming(up, plan, reviewed, kind)
    requires i < |pre + up + post|
    requires Lookup((pre + up + post)[i].before, name) != Lookup((pre + up + post)[i].after, name)
    ensures name in ChangedNames(plan) && name in reviewed
    ensures Lookup((pre + up + post)[i].before, name) == reviewed[name]
    ensures Lookup((pre + up + post)[i].after, name) == Some(plan[name].content)
    ensures SupportsConditionalWrite(kind, reviewed[name])
  {
    var tr := pre + up + post;
    assert Legit(tr[i]);
    assert forall j :: 0 <= j < |pre| ==> tr[j] == pre[j];
    assert forall j :: |pre| <= j < |pre| + |up| ==> tr[j] == up[j - |pre|];
    assert forall j :: |pre| + |up| <= j < |tr| ==> tr[j] == post[j - |pre| - |up|];
  }

  /** Over Moonraker's own interface a run changes no file; over SFTP or removable media it only creates files. */
  lemma WritesPossible(tr: Trace, plan: Plan, reviewed: Contents, kind: Kind, i: nat, name: Name)
    requires AllLegit(tr) && Conforming(tr, plan, reviewed, kind) && i < |tr|
    ensures kind == MoonrakerHttp ==> tr[i].after == tr[i].before
    ensures kind in {Sftp, OfflineLocal} && name in tr[i].before ==>
      name in tr[i].after && tr[i].after[name] == tr[i].before[name]
  {
    assert Legit(tr[i]);
  }

  /** Nobody else writes while the run goes on. */
  ghost predicate NoOutsideEdits(tr: Trace) {
    forall i :: 0 < i < |tr| ==> tr[i].before == tr[i - 1].after
  }

  lemma {:induction false} QuietStore(tr: Trace, i: nat)
    requires AllLegit(tr) && Quiet(tr) && NoOutsideEdits(tr) && i < |tr|
    ensures tr[i].after == tr[0].before && tr[i].before == tr[0].before
    decreases i
  {
    assert Legit(tr[i]);
    if i > 0 {
      QuietStore(tr, i - 1);
    }
  }

  /** Left alone, a changed file holds the plan from its upload on, and its original before. */
  lemma {:induction false} StoreDuringUploads(tr: Trace, plan: Plan, reviewed: Contents, kind: Kind, k: nat, name: Name)
    requires AllLegit(tr) && NoOutsideEdits(tr) && Conforming(tr, plan, reviewed, kind)
    requires k < |tr| && name in ChangedNames(plan) && name in reviewed
    requires Lookup(tr[0].before, name) == reviewed[name]
    ensures Lookup(tr[k].after, name)
         == if AppliedBefore(tr, k + 1, name) then Some(plan[name].content) else reviewed[name]
    decreases k
  {
    assert Legit(tr[k]);
    if k > 0 {
      StoreDuringUploads(tr, plan, reviewed, kind, k - 1, name);
      assert AppliedBefore(tr, k, name) ==> AppliedBefore(tr, k + 1, name);
    }
    if AppliedAt(tr, k, name) {
      assert AppliedBefore(tr, k + 1, name);
    } else if AppliedBefore(tr, k + 1, name) {
      var j :| 0 <= j < k + 1 && AppliedAt(tr, j, name);
      assert AppliedBefore(tr, k, name);
    }
  }

  /**
    Crash consistency: absent outside edits, whenever the root holds its changed plan, after any
    call of the run, every other changed file holds its plan too.
   */
  lemma CrashConsistency(pre: Trace, up: Trace, post: Trace, plan: Plan, reviewed: Contents, kind: Kind,
                         k: nat, name: Name)
    requires AllLegit(pre + up + post) && NoOutsideEdits(pre + up + post)
    requires Quiet(pre) && Quiet(post) && Evidence(pre, reviewed) && pre != []
    requires Conforming(up, plan, reviewed, kind) && RootLast(up, plan) && PlanFor(plan, reviewed)
    requires k < |pre + up + post| && Root in ChangedNames(plan) && name in ChangedNames(plan)
    requires Lookup((pre + up + post)[k].after, Root) == Some(plan[Root].content)
    ensures Lookup((pre + up + post)[k].after, name) == Some(plan[name].content)
  {
    hide Conforming, RootLast, AppliedBefore, Legit, Quiet, Evidence, NoOutsideEdits, AllLegit;
    var tr := pre + up + post;
    ChangedIsReviewed(plan, reviewed, Root);
    ChangedIsReviewed(plan, reviewed, name);
    assert pre + (up + post) == tr;
    FoundAsReviewed(pre, up + post, reviewed, Root);
    FoundAsReviewed(pre, up + post, reviewed, name);
    ConformingThroughout(pre, up, post, plan, reviewed, kind);
    StoreDuringUploads(tr, plan, reviewed, kind, k, Root);
    StoreDuringUploads(tr, plan, reviewed, kind, k, name);
    RootAppliedLast(pre, up, post, plan, k + 1, name);
  }

  lemma ChangedIsReviewed(plan: Plan, reviewed: Contents, name: Name)
    requires PlanFor(plan, reviewed) && name in ChangedNames(plan)
    ensures name in reviewed && reviewed[name] == plan[name].previous && reviewed[name] != Some(plan[name].content)
  {
  }

  /** Without outside edits, the store holds what the review read from the start. */
  lemma FoundAsReviewed(pre: Trace, rest: Trace, reviewed: Contents, name: Name)
    requires AllLegit(pre + rest) && NoOutsideEdits(pre + rest) && Quiet(pre) && Evidence(pre, reviewed)
    requires name in reviewed
    ensures pre != [] && Lookup((pre + rest)[0].before, name) == reviewed[name]
  {
    var tr := pre + rest;
    assert forall i :: 0 <= i < |pre| ==> tr[i] == pre[i];
    assert NoOutsideEdits(pre) && AllLegit(pre) by {
      assert forall i :: 0 < i < |pre| ==> tr[i].before == tr[i - 1].after;
    }
    assert Saw(pre, name, reviewed[name]);
    var i :| 0 <= i < |pre| && pre[i].call == ReadOne(name, reviewed[name]);
    assert Legit(pre[i]);
    QuietStore(pre, i);
  }

  lemma ConformingThroughout(pre: Trace, up: Trace, post: Trace, plan: Plan, reviewed: Contents, kind: Kind)
    requires Quiet(pre) && Quiet(post) && Conforming(up, plan, reviewed, kind)
    ensures Conforming(pre + up + post, plan, reviewed, kind)
  {
    var tr := pre + up + post;
    assert forall i :: 0 <= i < |pre| ==> tr[i] == pre[i];
    assert forall i :: |pre| <= i < |pre| + |up| ==> tr[i] == up[i - |pre|];
    assert forall i :: |pre| + |up| <= i < |tr| ==> tr[i] == post[i - |pre| - |up|];
  }

  lemma RootAppliedLast(pre: Trace, up: Trace, post: Trace, plan: Plan, end: nat, name: Name)
    requires Quiet(pre) && Quiet(post) && RootLast(up, plan) && name in ChangedNames(plan)
    requires AppliedBefore(pre + up + post, end, Root)
    ensures AppliedBefore(pre + up + post, end, name)
  {
    var tr := pre + up + post;
    assert forall i :: 0 <= i < |pre| ==> tr[i] == pre[i];
    assert forall i :: |pre| <= i < |pre| + |up| ==> tr[i] == up[i - |pre|];
    assert forall i :: |pre| + |up| <= i < |tr| ==> tr[i] == post[i - |pre| - |up|];
    var j :| 0 <= j < end && AppliedAt(tr, j, Root);
    if name != Root {
      assert AppliedBefore(up, j - |pre|, name);
      var m :| 0 <= m < j - |pre| && AppliedAt(up, m, name);
      assert AppliedAt(tr, |pre| + m, name);
    }
  }
}

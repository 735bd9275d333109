/** Choosing the one device that may be recorded as the verified board after a flash. */
module McuVerification {
  import opened Prelude
  import opened McuIdentity
  import opened Checkpoint

  const STABLE_PREFIX := "/dev/serial/by-id/"

  /** What the serial path says about the MCU behind it, against the model of the workflow. */
  datatype Model = Unnamed | SameModel | OtherModel

  datatype Observation = Observation(path: string, node: string, present: bool, model: Model, reading: Option<Identity>)

  /** The evidence of the workflow: `bridges` are the serial adapters that never show the MCU behind them. */
  datatype Evidence = Evidence(recorded: Option<Identity>, baselinePath: string, applications: set<string>,
                               bootloaders: set<string>, bridges: set<string>) {

    function Baseline(): Identity {
      if recorded.Some? then recorded.value else Identity(baselinePath, "", "", "", "", "", "", {})
    }

    function Expected(): set<string> {
      if applications != {} then applications
      else if Baseline().vidPid != "" then {Baseline().vidPid}
      else {}
    }

    function Promised(): Policy {
      Policy(Expected(), bootloaders)
    }
  }

  predicate Stable(o: Observation) {
    STABLE_PREFIX <= o.path && o.present
  }

  /** A by-id path alone proves neither topology nor VID:PID. */
  function Candidate(o: Observation): Identity {
    if o.reading.Some? then o.reading.value else Identity(o.path, o.node, "", "", "", "", "", {})
  }

  predicate Foreign(e: Evidence, o: Observation) {
    e.Expected() != {} && Candidate(o).vidPid != "" && Candidate(o).vidPid !in e.Expected()
  }

  /** Without a recorded baseline or a candidate topology nothing is better than doubtful. */
  function Weighed(e: Evidence, o: Observation): Verdict {
    var verdict := Assess(e.Baseline(), Candidate(o), e.Promised());
    if (e.recorded.None? || !Candidate(o).HasTopology()) && verdict !in {MISMATCH, TRANSIENT} then AMBIGUOUS else verdict
  }

  // ----- what a device must show, said without the loop -----

  /** The board is proven: recorded identity, shared topology, a promised VID:PID, no conflicting serial. */
  predicate Proven(e: Evidence, o: Observation) {
    && Stable(o) && o.model != OtherModel && e.recorded.Some?
    && Proves(e.Baseline(), Candidate(o), e.Promised())
    && (o.model == Unnamed ==> Candidate(o).vidPid in e.bridges)
  }

  /** The board cannot be told from another one: only the operator can. */
  predicate Doubtful(e: Evidence, o: Observation) {
    var candidate := Candidate(o);
    && Stable(o) && o.model == SameModel && !Foreign(e, o) && !Proven(e, o)
    && !(SharesTopology(e.Baseline(), candidate) && e.Promised().OnlyBootloader(candidate.vidPid))
    && (e.recorded.None? || !candidate.HasTopology() || SharesTopology(e.Baseline(), candidate)
        || e.Promised().Expects(candidate.vidPid) || Shared(e.Baseline().serial, candidate.serial))
  }

  type Resolver = Option<Identity -> bool>

  predicate Confirms(resolver: Resolver, o: Observation) {
    resolver.Some? && resolver.value(Candidate(o))
  }

  ghost predicate OnlyProven(e: Evidence, devices: seq<Observation>, i: nat) {
    i < |devices| && Proven(e, devices[i]) && forall j :: 0 <= j < |devices| && j != i ==> !Proven(e, devices[j])
  }

  ghost predicate OnlyDoubtful(e: Evidence, devices: seq<Observation>, i: nat) {
    && i < |devices| && Doubtful(e, devices[i])
    && (forall j :: 0 <= j < |devices| ==> !Proven(e, devices[j]))
    && (forall j :: 0 <= j < |devices| && j != i ==> !Doubtful(e, devices[j]))
  }

  /** The one device that is proven, or else the only doubtful one if the operator says yes. */
  ghost predicate Selected(e: Evidence, devices: seq<Observation>, resolver: Resolver, i: nat) {
    OnlyProven(e, devices, i) || (OnlyDoubtful(e, devices, i) && Confirms(resolver, devices[i]))
  }

  lemma SelectedIsUnique(e: Evidence, devices: seq<Observation>, resolver: Resolver, i: nat, j: nat)
    requires Selected(e, devices, resolver, i) && Selected(e, devices, resolver, j)
    ensures i == j
  {
  }

  // ----- the selection loop -----

  /** The verdict under which a device is a candidate, if it is one. */
  function Considered(e: Evidence, o: Observation): Option<Verdict> {
    if o.model == OtherModel then None
    else if o.model == Unnamed && e.bridges == {} then None
    else if !Stable(o) then None
    else if Foreign(e, o) then None
    else
      var verdict := Weighed(e, o);
      if o.model == Unnamed && (Candidate(o).vidPid !in e.bridges || verdict != MATCH) then None
      else if verdict in {MATCH, AMBIGUOUS} then Some(verdict)
      else None
  }

  /** The branches of the loop admit exactly the proven and the doubtful devices. */
  lemma ConsideredMeans(e: Evidence, o: Observation)
    ensures Considered(e, o) == Some(MATCH) <==> Proven(e, o)
    ensures Considered(e, o) == Some(AMBIGUOUS) <==> Doubtful(e, o)
    ensures Considered(e, o).Some? ==> Considered(e, o).value in {MATCH, AMBIGUOUS}
  {
    hide SharesTopology, Proves, Score;
    MatchIsProof(e.Baseline(), Candidate(o), e.Promised());
  }

  /** The indices of the devices considered under a verdict, each once and in order. */
  ghost predicate Lists(found: seq<nat>, e: Evidence, devices: seq<Observation>, verdict: Verdict) {
    && (forall i :: 0 <= i < |found| ==> found[i] < |devices| && Considered(e, devices[found[i]]) == Some(verdict))
    && (forall i, j :: 0 <= i < j < |found| ==> found[i] < found[j])
    && (forall i: nat :: i < |devices| && Considered(e, devices[i]) == Some(verdict) ==> i in found)
  }

  lemma OnlyOne(found: seq<nat>, e: Evidence, devices: seq<Observation>, verdict: Verdict, i: nat)
    requires Lists(found, e, devices, verdict)
    ensures found == [i] <==>
      (&& i < |devices| && Considered(e, devices[i]) == Some(verdict)
       && forall j :: 0 <= j < |devices| && j != i ==> Considered(e, devices[j]) != Some(verdict))
  {
    hide Considered;
    if found == [i] {
      assert found[0] == i;
    } else if i < |devices| && Considered(e, devices[i]) == Some(verdict) {
      var at :| 0 <= at < |found| && found[at] == i;
      var other := if at == 0 then 1 else 0;
      assert |found| > 1;
      assert found[other] != i;
    }
  }

  /** The lists of the loop decide exactly which device is selected. */
  lemma ListsSelect(matches: seq<nat>, doubtful: seq<nat>, e: Evidence, devices: seq<Observation>,
                    resolver: Resolver, i: nat)
    requires Lists(matches, e, devices, MATCH) && Lists(doubtful, e, devices, AMBIGUOUS)
    ensures Selected(e, devices, resolver, i) <==>
      matches == [i] || (matches == [] && doubtful == [i] && i < |devices| && Confirms(resolver, devices[i]))
    ensures matches == [i] ==> i < |devices| && Proven(e, devices[i])
    ensures matches == [] && doubtful == [i] ==> i < |devices| && !Proven(e, devices[i])
  {
    hide Proven, Doubtful, Considered;
    forall j | 0 <= j < |devices| ensures Considered(e, devices[j]) == Some(MATCH) <==> Proven(e, devices[j])
      ensures Considered(e, devices[j]) == Some(AMBIGUOUS) <==> Doubtful(e, devices[j])
    {
      ConsideredMeans(e, devices[j]);
    }
    OnlyOne(matches, e, devices, MATCH, i);
    OnlyOne(doubtful, e, devices, AMBIGUOUS, i);
    if matches != [] {
      assert Proven(e, devices[matches[0]]);
    }
  }

  lemma ListsGrow(found: seq<nat>, e: Evidence, devices: seq<Observation>, k: nat, verdict: Verdict)
    requires k < |devices| && Lists(found, e, devices[..k], verdict)
    ensures Lists(if Considered(e, devices[k]) == Some(verdict) then found + [k] else found, e, devices[..k + 1], verdict)
  {
    hide Considered;
    assert devices[..k + 1] == devices[..k] + [devices[k]];
    forall i: nat | i < k + 1 && Considered(e, devices[i]) == Some(verdict)
      ensures i in if Considered(e, devices[k]) == Some(verdict) then found + [k] else found
    {
      if i < k {
        assert devices[..k][i] == devices[i];
      }
    }
  }

  lemma ListsNothing(e: Evidence, devices: seq<Observation>)
    ensures forall verdict :: Lists([], e, devices[..0], verdict)
  {
  }

  method SelectDevice(e: Evidence, devices: seq<Observation>, resolver: Resolver)
    returns (r: Result<(nat, bool), WorkflowError>)
    ensures r.Success? <==> exists i: nat :: Selected(e, devices, resolver, i)
    ensures r.Success? ==> Selected(e, devices, resolver, r.value.0) && (r.value.1 <==> !Proven(e, devices[r.value.0]))
  {
    hide Proven, Doubtful, Considered, Selected, Lists;
    ListsNothing(e, devices);
    var matches: seq<nat>, doubtful: seq<nat> := [], [];
    for k := 0 to |devices|
      invariant Lists(matches, e, devices[..k], MATCH)
      invariant Lists(doubtful, e, devices[..k], AMBIGUOUS)
    {
      var verdict := Considered(e, devices[k]);
      ListsGrow(matches, e, devices, k, MATCH);
      ListsGrow(doubtful, e, devices, k, AMBIGUOUS);
      if verdict == Some(MATCH) {
        matches := matches + [k];
      } else if verdict == Some(AMBIGUOUS) {
        doubtful := doubtful + [k];
      }
    }
    assert devices[..|devices|] == devices;
    forall i: nat
      ensures Selected(e, devices, resolver, i) <==>
        matches == [i] || (matches == [] && doubtful == [i] && i < |devices| && Confirms(resolver, devices[i]))
    {
      ListsSelect(matches, doubtful, e, devices, resolver, i);
    }
    var eligible := if matches != [] then matches else doubtful;
    if |eligible| != 1 {
      return Failure(Incompatible);
    }
    var chosen := eligible[0];
    var manual := matches == [];
    assert eligible == [chosen];
    ListsSelect(matches, doubtful, e, devices, resolver, chosen);
    if manual && (resolver.None? || !resolver.value(Candidate(devices[chosen]))) {
      return Failure(Incompatible);
    }
    r := Success((chosen, manual));
  }

  // ----- the checkpoint of a verified board -----

  const QUIET := Update(None, None, None, None, "", 0)

  /**
    `verify_reappeared_mcu`: `recoverable` is the image check of boards that need one, `now` the
    clock.  Only a selected device is ever recorded, under its stable path.
   */
  method VerifyReappeared(c: Checkpoint, flashEvidence: bool, recoverable: bool, e: Evidence,
                          devices: seq<Observation>, resolver: Resolver, now: int)
    returns (r: Result<(Checkpoint, nat), WorkflowError>)
    requires now > 0
    ensures r.Success? <==>
      (&& Valid(c) && c.payload.state in {AwaitingFlash, VerifyingMcu} && flashEvidence && recoverable
       && exists i: nat :: Selected(e, devices, resolver, i))
    ensures r.Success? ==>
      var verified, before := r.value.0.payload, c.payload;
      && Valid(r.value.0) && Selected(e, devices, resolver, r.value.1)
      && verified.state == McuVerified
      && verified.hardware == before.hardware.(verifiedSerial := devices[r.value.1].path, flashRecordedAt := now)
      && STABLE_PREFIX <= verified.hardware.verifiedSerial && devices[r.value.1].present
      && verified.artifact == before.artifact && verified.id == before.id && verified.sequence > before.sequence
  {
    hide Selected;
    var _ :- Validate(c);
    if c.payload.state !in {AwaitingFlash, VerifyingMcu} || !flashEvidence || !recoverable {
      return Failure(MissingEvidence);
    }
    var device :- SelectDevice(e, devices, resolver);
    SelectedIsStable(e, devices, resolver, device.0);
    var path := devices[device.0].path;
    var verifying := c;
    // from here on neither transition can be refused
    if c.payload.state == AwaitingFlash {
      verifying := Transition(c, VerifyingMcu, QUIET).value;
    }
    var update := QUIET.(verifiedSerial := Some(path), flashRecordedAt := Some(now));
    r := Success((Transition(verifying, McuVerified, update).value, device.0));
  }

  lemma SelectedIsStable(e: Evidence, devices: seq<Observation>, resolver: Resolver, i: nat)
    requires Selected(e, devices, resolver, i)
    ensures i < |devices| && STABLE_PREFIX <= devices[i].path && devices[i].path != "" && devices[i].present
  {
    assert Stable(devices[i]);
    assert |devices[i].path| >= |STABLE_PREFIX|;
  }

  /** A device of another kind, or one still in its bootloader, is never selected. */
  lemma NeverMismatchedOrTransient(e: Evidence, devices: seq<Observation>, resolver: Resolver, i: nat)
    requires Selected(e, devices, resolver, i)
    ensures Assess(e.Baseline(), Candidate(devices[i]), e.Promised()) !in {MISMATCH, TRANSIENT}
  {
    MatchIsProof(e.Baseline(), Candidate(devices[i]), e.Promised());
  }

  /** Without the operator, only recorded identity, topology and VID:PID with a score of 90 are enough. */
  lemma UnattendedNeedsProof(e: Evidence, devices: seq<Observation>, i: nat)
    requires Selected(e, devices, None, i)
    ensures var candidate := Candidate(devices[i]);
      && e.recorded.Some? && candidate.HasTopology() && SharesTopology(e.recorded.value, candidate)
      && candidate.vidPid != "" && candidate.vidPid in (if e.applications != {} then e.applications else {e.recorded.value.vidPid})
      && !Conflict(e.recorded.value.serial, candidate.serial)
      && Assess(e.recorded.value, candidate, e.Promised()) == MATCH
      && Score(e.recorded.value, candidate, e.Promised()) >= 90
  {
    MatchIsProof(e.Baseline(), Candidate(devices[i]), e.Promised());
  }
}

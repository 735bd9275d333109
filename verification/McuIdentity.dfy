/**
  The scored decision whether a device seen after flashing is the board that was selected.

  A missing udev property is the empty string; VID:PID identifiers are taken as already lower case.
 */
module McuIdentity {

  datatype Identity = Identity(path: string, node: string, devpath: string, serial: string, physicalPath: string,
                               vidPid: string, physicalPort: string, byPath: set<string>) {

    predicate HasTopology() {
      physicalPort != "" || byPath != {} || physicalPath != "" || devpath != ""
    }

    /** The first kind of evidence both sides have decides. */
    predicate OccupiesSameSlot(other: Identity) {
      if physicalPort != "" && other.physicalPort != "" then physicalPort == other.physicalPort
      else if byPath != {} && other.byPath != {} then byPath * other.byPath != {}
      else if physicalPath != "" && other.physicalPath != "" then physicalPath == other.physicalPath
      else if devpath != "" && other.devpath != "" then devpath == other.devpath
      else node == other.node
    }

    predicate Matches(other: Identity) {
      && OccupiesSameSlot(other)
      && !Conflict(vidPid, other.vidPid)
      && !Conflict(serial, other.serial)
    }
  }

  datatype Verdict = MATCH | AMBIGUOUS | MISMATCH | TRANSIENT | UNRELATED

  predicate Shared(a: string, b: string) {
    a != "" && b != "" && a == b
  }

  predicate Conflict(a: string, b: string) {
    a != "" && b != "" && a != b
  }

  /** The VID:PID identifiers the board profile promises for the application and for the bootloader. */
  datatype Policy = Policy(expected: set<string>, bootloader: set<string>) {
    predicate Expects(vidPid: string) {
      vidPid in expected - {""}
    }

    predicate HasExpectation() {
      expected - {""} != {}
    }

    predicate OnlyBootloader(vidPid: string) {
      vidPid in bootloader - {""} && !Expects(vidPid)
    }
  }

  predicate StrongTopology(baseline: Identity, candidate: Identity) {
    Shared(baseline.physicalPort, candidate.physicalPort) || baseline.byPath * candidate.byPath != {}
  }

  predicate WeakTopology(baseline: Identity, candidate: Identity) {
    Shared(baseline.physicalPath, candidate.physicalPath) || Shared(baseline.devpath, candidate.devpath)
  }

  predicate SharesTopology(baseline: Identity, candidate: Identity) {
    StrongTopology(baseline, candidate) || WeakTopology(baseline, candidate)
  }

  function Score(baseline: Identity, candidate: Identity, policy: Policy): int {
    var topology :=
      if StrongTopology(baseline, candidate) then 60
      else if Shared(baseline.physicalPath, candidate.physicalPath) then 55
      else if Shared(baseline.devpath, candidate.devpath) then 50
      else 0;
    var identity := topology + if policy.Expects(candidate.vidPid) then 30 else 0;
    if Shared(baseline.serial, candidate.serial) then identity + 10
    else if Conflict(baseline.serial, candidate.serial) then (if identity < 20 then 0 else identity - 20)
    else identity
  }

  function Assess(baseline: Identity, candidate: Identity, policy: Policy): Verdict {
    if SharesTopology(baseline, candidate) then
      if policy.OnlyBootloader(candidate.vidPid) then TRANSIENT
      else if !policy.HasExpectation() then AMBIGUOUS
      else if candidate.vidPid == "" then AMBIGUOUS
      else if !policy.Expects(candidate.vidPid) then MISMATCH
      else if Conflict(baseline.serial, candidate.serial) then AMBIGUOUS
      else if Score(baseline, candidate, policy) < 90 then AMBIGUOUS
      else MATCH
    else if policy.Expects(candidate.vidPid) then AMBIGUOUS
    else if Shared(baseline.serial, candidate.serial) then AMBIGUOUS
    else UNRELATED
  }

  /** The evidence that proves the identity, without a score: a strong topology, or a weak one and the serial. */
  predicate Proves(baseline: Identity, candidate: Identity, policy: Policy) {
    && policy.Expects(candidate.vidPid)
    && !Conflict(baseline.serial, candidate.serial)
    && (StrongTopology(baseline, candidate)
        || (WeakTopology(baseline, candidate) && Shared(baseline.serial, candidate.serial)))
  }

  /** The threshold of 90 accepts exactly the combinations of evidence that prove the identity. */
  lemma MatchIsProof(baseline: Identity, candidate: Identity, policy: Policy)
    ensures Assess(baseline, candidate, policy) == MATCH <==> Proves(baseline, candidate, policy)
    ensures Assess(baseline, candidate, policy) == MATCH ==>
      SharesTopology(baseline, candidate) && candidate.HasTopology() && Score(baseline, candidate, policy) >= 90
  {
    if baseline.byPath * candidate.byPath != {} {
      var p :| p in baseline.byPath * candidate.byPath;
      assert p in candidate.byPath;
    }
  }

  /** The other verdicts, each by what was read; what is left can only be asked about. */
  lemma VerdictMeans(baseline: Identity, candidate: Identity, policy: Policy)
    ensures var verdict, shares := Assess(baseline, candidate, policy), SharesTopology(baseline, candidate);
      var boots := candidate.vidPid != "" && candidate.vidPid in policy.bootloader && candidate.vidPid !in policy.expected;
      && (verdict == TRANSIENT <==> shares && boots)
      && (verdict == MISMATCH <==>
            shares && !boots && candidate.vidPid != "" && candidate.vidPid !in policy.expected && policy.expected - {""} != {})
      && (verdict == UNRELATED <==>
            !shares && (candidate.vidPid == "" || candidate.vidPid !in policy.expected)
            && (baseline.serial == "" || candidate.serial != baseline.serial))
      && (verdict == MATCH <==> Proves(baseline, candidate, policy))
  {
    MatchIsProof(baseline, candidate, policy);
  }

  /** Whether two readings are of one slot is decided by the best evidence that both have, whichever is read first. */
  lemma SlotMeans(a: Identity, b: Identity)
    ensures a.OccupiesSameSlot(b) == b.OccupiesSameSlot(a)
    ensures a.physicalPort != "" && b.physicalPort != "" ==> (a.OccupiesSameSlot(b) <==> a.physicalPort == b.physicalPort)
    ensures (a.physicalPort == "" || b.physicalPort == "") && a.byPath != {} && b.byPath != {} ==>
      (a.OccupiesSameSlot(b) <==> exists path :: path in a.byPath && path in b.byPath)
    ensures (a.physicalPort == "" || b.physicalPort == "") && (a.byPath == {} || b.byPath == {}) ==>
      (a.OccupiesSameSlot(b) <==>
         if a.physicalPath != "" && b.physicalPath != "" then a.physicalPath == b.physicalPath
         else if a.devpath != "" && b.devpath != "" then a.devpath == b.devpath
         else a.node == b.node)
  {
    assert a.byPath * b.byPath == b.byPath * a.byPath;
    if a.byPath * b.byPath != {} {
      var path :| path in a.byPath * b.byPath;
      assert path in a.byPath && path in b.byPath;
    }
    if path :| path in a.byPath && path in b.byPath {
      assert path in a.byPath * b.byPath;
    }
  }

  /** More evidence never turns a proven board into a doubtful one: a richer reading of it still matches. */
  lemma MatchIsMonotone(baseline: Identity, less: Identity, more: Identity, policy: Policy)
    requires Assess(baseline, less, policy) == MATCH
    requires more.vidPid == less.vidPid && less.byPath <= more.byPath
    requires less.serial != "" ==> more.serial == less.serial
    requires less.physicalPort != "" ==> more.physicalPort == less.physicalPort
    requires less.physicalPath != "" ==> more.physicalPath == less.physicalPath
    requires less.devpath != "" ==> more.devpath == less.devpath
    ensures Assess(baseline, more, policy) == MATCH
      <==> !(less.serial == "" && Conflict(baseline.serial, more.serial))
  {
    MatchIsProof(baseline, less, policy);
    MatchIsProof(baseline, more, policy);
    if baseline.byPath * less.byPath != {} {
      var p :| p in baseline.byPath * less.byPath;
      assert p in baseline.byPath * more.byPath;
    }
  }
}

/**
  The interactive driver of the firmware workflow, as a machine over persisted checkpoints.

  Each choice is what the operator, the compiler, the flashing step or a crash decides next; the
  driver's own branches are the ones of `main` and `_wait_for_manual_flash`.  A process may die at
  any point; the next one resumes from the checkpoint that was persisted last.
 */
module WorkflowDriver {
  import opened Prelude
  import opened Checkpoint

  /** Where a process stands. */
  datatype Stage =
    | Resume            // nothing running: the checkpoint is on disk
    | Review            // the resume choice was honoured, the printer geometry is reviewed next
    | FirmwarePhase     // compile, or refuse to
    | Delivery          // an artifact is ready to be delivered
    | AutoVerify        // an automatic flash succeeded
    | ManualFlash(verify: bool)  // the pause; `verify`: go straight to verification
    | Gate              // may configuration be generated?
    | Deployment        // configuration is generated, a destination is chosen
    | InFlight          // a live deployment is under way

  /**
    One attempted transition: was it legal, did it take effect, the evidence it recorded, what it was
    made for (`None`: the driver's own step) and the serial that the checkpoint held.
   */
  datatype Attempt = Attempt(from: WorkflowState, to: WorkflowState, legal: bool, applied: bool,
                             built: Option<Artifact>, recorded: Option<(string, int)>,
                             cause: Option<Choice>, serial: string)

  datatype Driver = Driver(checkpoint: Checkpoint, stage: Stage, log: seq<Attempt>)

  datatype Choice =
    | Die
    | ContinueRun | VerifyNow | RecompileChoice | ReviewZ
    | GeometryUnchanged | GeometryChanged
    | UnresolvedPins | CompileFailed | NoEvidence | Compiled(artifact: Artifact)
    | DeliverNothing | DeliverCancelled | DeliverByHand | DeliverFailed | DeliverFlashed
    | McuSeen(serial: string, at: int) | McuRejected
    | AskVerify
    | Generated(serial: string)
    | SkipDeployment | DeployLive | DeploymentEnded(ok: bool)

  const QUIET := Update(None, None, None, None, "", 0)

  function Evidence(u: Update): Option<(string, int)> {
    if u.verifiedSerial.Some? && u.flashRecordedAt.Some? then Some((u.verifiedSerial.value, u.flashRecordedAt.value))
    else None
  }

  /** Attempts one transition and persists it; a refused one ends the process. */
  function Attempted(d: Driver, to: WorkflowState, u: Update, stage: Stage, cause: Option<Choice>): Driver {
    var from := State(d);
    var moved := Transition(d.checkpoint, to, u);
    var applied := moved.Success? && Valid(moved.value);
    var log := d.log + [Attempt(from, to, Legal(from, to), applied, u.artifact, Evidence(u), cause,
                                d.checkpoint.payload.hardware.verifiedSerial)];
    if applied then Driver(moved.value, stage, log) else d.(stage := Resume, log := log)
  }

  /** `verify_reappeared_mcu`: the one step that records a serial and flash evidence. */
  function Verified(d: Driver, serial: string, at: int, stage: Stage): Driver {
    Attempted(d, McuVerified, QUIET.(verifiedSerial := Some(serial), flashRecordedAt := Some(at)), stage,
              Some(McuSeen(serial, at)))
  }

  function State(d: Driver): WorkflowState {
    d.checkpoint.payload.state
  }

  /** The pause of the manual path; it leaves ARTIFACT_READY on entry. */
  function EnterManualFlash(d: Driver, verify: bool): Driver {
    if State(d) == ArtifactReady then Attempted(d, AwaitingFlash, QUIET, ManualFlash(verify), None)
    else d.(stage := ManualFlash(verify))
  }

  /** Leaves the firmware part: only a verified board goes on. */
  function PassGate(d: Driver): Driver {
    if State(d) in {McuVerified, ConfigGenerated, ReadyToDeploy, Deploying, Complete} then d.(stage := Gate)
    else if State(d) in {ArtifactReady, AwaitingFlash, VerifyingMcu} then EnterManualFlash(d, false)
    else d.(stage := Resume)
  }

  /** The generated configuration must name the board that was verified; each step is persisted. */
  function Generate(d: Driver, serial: string): Driver {
    var verified := d.checkpoint.payload.hardware.verifiedSerial;
    if serial == "" || verified == "" || serial != verified then d.(stage := Resume)
    else if State(d) == McuVerified then Attempted(d, ConfigGenerated, QUIET, Gate, Some(Generated(serial)))
    else if State(d) == ConfigGenerated then Attempted(d, ReadyToDeploy, QUIET, Deployment, Some(Generated(serial)))
    else d.(stage := Deployment)
  }

  /** One decision; one that the current prompt does not offer changes nothing. */
  function Next(d: Driver, c: Choice): Driver {
    if c == Die then d.(stage := Resume)
    else match d.stage
      case Resume =>
        if State(d) == Complete then d
        else (match c
          case RecompileChoice => Attempted(d, CompileRequired, QUIET, Review, Some(c))
          case ContinueRun =>
            if State(d) == Deploying then Attempted(d, ReadyToDeploy, QUIET, Review, Some(c)) else d.(stage := Review)
          case VerifyNow =>
            if State(d) in {ArtifactReady, AwaitingFlash, VerifyingMcu} then EnterManualFlash(d, true) else d
          case ReviewZ => if State(d) == McuVerified then d.(stage := Review) else d
          case _ => d)
      case Review =>
        (match c
          case GeometryUnchanged => d.(stage := FirmwarePhase)
          case GeometryChanged =>
            if State(d) == McuVerified then Attempted(d, McuVerified, QUIET, FirmwarePhase, Some(c)) else d
          case _ => d)
      case FirmwarePhase =>
        if State(d) !in {HardwareSelected, CompileRequired} then PassGate(d)
        else (match c
          case UnresolvedPins => Attempted(d, CompileRequired, QUIET, Resume, Some(c))
          case CompileFailed => Attempted(d, CompileRequired, QUIET, Resume, Some(c))
          case NoEvidence => Attempted(d, CompileRequired, QUIET, Resume, Some(c))
          case Compiled(artifact) => Attempted(d, ArtifactReady, QUIET.(artifact := Some(artifact)), Delivery, Some(c))
          case _ => d)
      case Delivery =>
        (match c
          case DeliverNothing => EnterManualFlash(d, false)
          case DeliverCancelled => Attempted(d, AwaitingFlash, QUIET, Resume, Some(c))
          case DeliverByHand => Attempted(d, AwaitingFlash, QUIET, ManualFlash(false), Some(c))
          case DeliverFailed => Attempted(d, AwaitingFlash, QUIET, Resume, Some(c))
          case DeliverFlashed => Attempted(d, VerifyingMcu, QUIET, AutoVerify, Some(c))
          case _ => d)
      case AutoVerify =>
        (match c
          case McuSeen(serial, at) => Verified(d, serial, at, Gate)
          case McuRejected => Attempted(d, AwaitingFlash, QUIET, Resume, Some(c))
          case _ => d)
      case ManualFlash(verify) =>
        if !verify then (if c == AskVerify then d.(stage := ManualFlash(true)) else d)
        else if State(d) != VerifyingMcu then Attempted(d, VerifyingMcu, QUIET, ManualFlash(true), None)
        else (match c
          case McuSeen(serial, at) => Verified(d, serial, at, Review)
          case McuRejected => Attempted(d, AwaitingFlash, QUIET, ManualFlash(false), Some(c))
          case _ => d)
      case Gate =>
        (match c
          case Generated(serial) => Generate(d, serial)
          case _ => d)
      case Deployment =>
        (match c
          case SkipDeployment => d.(stage := Resume)
          case DeployLive =>
            if State(d) != ReadyToDeploy then d.(stage := Resume) else Attempted(d, Deploying, QUIET, InFlight, Some(c))
          case _ => d)
      case InFlight =>
        (match c
          case DeploymentEnded(ok) => Attempted(d, if ok then Complete else ReadyToDeploy, QUIET, Resume, Some(c))
          case _ => d)
  }

  function Run(d: Driver, choices: seq<Choice>): Driver {
    if choices == [] then d else Next(Run(d, choices[..|choices| - 1]), choices[|choices| - 1])
  }

  // ----- the current cycle -----

  /** The attempts since COMPILE_REQUIRED was last entered. */
  function Cycle(log: seq<Attempt>): seq<Attempt> {
    if log == [] then []
    else
      var last := log[|log| - 1];
      if last.to == CompileRequired && last.applied then [] else Cycle(log[..|log| - 1]) + [last]
  }

  ghost predicate Entered(cycle: seq<Attempt>, i: nat, s: WorkflowState) {
    i < |cycle| && cycle[i].to == s && cycle[i].legal && cycle[i].applied
  }

  ghost predicate BuiltAt(cycle: seq<Attempt>, i: nat, artifact: Artifact) {
    Entered(cycle, i, ArtifactReady) && cycle[i].built == Some(artifact)
  }

  ghost predicate PassedArtifact(cycle: seq<Attempt>, artifact: Artifact) {
    exists i: nat :: BuiltAt(cycle, i, artifact)
  }

  ghost predicate PassedVerifying(cycle: seq<Attempt>, artifact: Artifact) {
    exists i: nat, j: nat :: i < j && BuiltAt(cycle, i, artifact) && Entered(cycle, j, VerifyingMcu)
  }

  ghost predicate VerifiedAt(cycle: seq<Attempt>, i: nat, j: nat, k: nat, artifact: Artifact, serial: string, at: int) {
    && i < j < k && BuiltAt(cycle, i, artifact) && Entered(cycle, j, VerifyingMcu)
    && Entered(cycle, k, McuVerified) && cycle[k].recorded == Some((serial, at))
  }

  /** The evidence was recorded by the verification of this cycle, after its artifact was built. */
  ghost predicate PassedVerified(cycle: seq<Attempt>, artifact: Artifact, serial: string, at: int) {
    exists i: nat, j: nat, k: nat :: VerifiedAt(cycle, i, j, k, artifact, serial, at)
  }

  /** Configuration was generated for the board with this serial. */
  ghost predicate PassedGenerated(cycle: seq<Attempt>, serial: string) {
    exists i: nat :: Entered(cycle, i, ConfigGenerated) && cycle[i].cause == Some(Generated(serial))
  }

  /** A deployment ended, and ended well. */
  ghost predicate PassedDeployment(cycle: seq<Attempt>) {
    exists i: nat ::
      Entered(cycle, i, Complete) && cycle[i].from == Deploying && cycle[i].cause == Some(DeploymentEnded(true))
  }

  predicate HasConfiguration(s: WorkflowState) {
    s in {ConfigGenerated, ReadyToDeploy, Deploying, Complete}
  }

  predicate Verifiable(s: WorkflowState) {
    s in {McuVerified, ConfigGenerated, ReadyToDeploy, Deploying, Complete}
  }

  /** What a persisted payload owes to the cycle it is in. */
  ghost predicate Owed(c: seq<Attempt>, p: Payload) {
    && (NeedsArtifact(p.state) ==> p.artifact.Some? && PassedArtifact(c, p.artifact.value))
    && (p.state == VerifyingMcu ==> PassedVerifying(c, p.artifact.value))
    && (Verifiable(p.state) ==>
          && PassedVerified(c, p.artifact.value, p.hardware.verifiedSerial, p.hardware.flashRecordedAt)
          && p.hardware.verifiedSerial != "" && p.hardware.flashRecordedAt > 0)
    && (HasConfiguration(p.state) ==> PassedGenerated(c, p.hardware.verifiedSerial))
    && (p.state == Complete ==> PassedDeployment(c))
  }

  /** Which decision may make which transition. */
  predicate Justified(a: Attempt) {
    && (match a.to {
          case HardwareSelected => false
          case CompileRequired =>
            || (a.cause == Some(RecompileChoice) && a.from != Complete)
            || (a.cause in {Some(UnresolvedPins), Some(CompileFailed), Some(NoEvidence)} && a.from in {HardwareSelected, CompileRequired})
          case ArtifactReady =>
            && a.cause.Some? && a.cause.value.Compiled? && a.built == Some(a.cause.value.artifact)
            && a.from in {HardwareSelected, CompileRequired}
          case AwaitingFlash =>
            || (a.from == ArtifactReady && a.cause in {None, Some(DeliverCancelled), Some(DeliverByHand), Some(DeliverFailed)})
            || (a.from == VerifyingMcu && a.cause == Some(McuRejected))
          case VerifyingMcu =>
            (a.from == ArtifactReady && a.cause == Some(DeliverFlashed)) || (a.from == AwaitingFlash && a.cause == None)
          case McuVerified =>
            || (a.from == VerifyingMcu && a.recorded.Some? && a.cause == Some(McuSeen(a.recorded.value.0, a.recorded.value.1)))
            || (a.from == McuVerified && a.cause == Some(GeometryChanged))
          case ConfigGenerated => a.from == McuVerified && a.serial != "" && a.cause == Some(Generated(a.serial))
          case ReadyToDeploy =>
            || (a.from == ConfigGenerated && a.serial != "" && a.cause == Some(Generated(a.serial)))
            || (a.from == Deploying && a.cause in {Some(ContinueRun), Some(DeploymentEnded(false))})
          case Deploying => a.from == ReadyToDeploy && a.cause == Some(DeployLive)
          case Complete => a.from == Deploying && a.cause == Some(DeploymentEnded(true))
        })
    && (a.cause.Some? && a.cause.value.DeploymentEnded? ==> a.applied)
  }

  /** The stage of a process fits the state it works on. */
  predicate Fits(stage: Stage, s: WorkflowState) {
    match stage
    case Delivery => s == ArtifactReady
    case AutoVerify => s == VerifyingMcu
    case ManualFlash(_) => s in {AwaitingFlash, VerifyingMcu}
    case Gate => Verifiable(s)
    case Deployment => s in {ReadyToDeploy, Deploying, Complete}
    case InFlight => s == Deploying
    case _ => true
  }

  /**
    Every attempt was justified by a decision, and legal but for the recompilation chosen while a
    deployment was unresolved.
   */
  ghost predicate AttemptsOk(log: seq<Attempt>) {
    && (forall i :: 0 <= i < |log| ==> Justified(log[i]))
    && (forall i :: 0 <= i < |log| && !log[i].legal ==>
          log[i].from == Deploying && log[i].to == CompileRequired && !log[i].applied)
  }

  ghost predicate Inv(d: Driver) {
    && Valid(d.checkpoint) && Owed(Cycle(d.log), d.checkpoint.payload)
    && Fits(d.stage, State(d)) && AttemptsOk(d.log)
  }

  lemma EnteredStays(cycle: seq<Attempt>, a: Attempt)
    ensures forall i: nat, s :: Entered(cycle, i, s) ==> Entered(cycle + [a], i, s)
    ensures forall i: nat, artifact :: BuiltAt(cycle, i, artifact) ==> BuiltAt(cycle + [a], i, artifact)
    ensures a.legal && a.applied ==> Entered(cycle + [a], |cycle|, a.to)
  {
  }

  lemma PassedStays(cycle: seq<Attempt>, a: Attempt, artifact: Artifact, serial: string, at: int)
    ensures PassedArtifact(cycle, artifact) ==> PassedArtifact(cycle + [a], artifact)
    ensures PassedVerifying(cycle, artifact) ==> PassedVerifying(cycle + [a], artifact)
    ensures PassedVerified(cycle, artifact, serial, at) ==> PassedVerified(cycle + [a], artifact, serial, at)
    ensures PassedGenerated(cycle, serial) ==> PassedGenerated(cycle + [a], serial)
    ensures PassedDeployment(cycle) ==> PassedDeployment(cycle + [a])
  {
    EnteredStays(cycle, a);
    if PassedArtifact(cycle, artifact) {
      var i: nat :| BuiltAt(cycle, i, artifact);
      assert BuiltAt(cycle + [a], i, artifact);
    }
    if PassedVerifying(cycle, artifact) {
      var i: nat, j: nat :| i < j && BuiltAt(cycle, i, artifact) && Entered(cycle, j, VerifyingMcu);
      assert BuiltAt(cycle + [a], i, artifact) && Entered(cycle + [a], j, VerifyingMcu);
    }
    if PassedVerified(cycle, artifact, serial, at) {
      var i: nat, j: nat, k: nat :| VerifiedAt(cycle, i, j, k, artifact, serial, at);
      assert VerifiedAt(cycle + [a], i, j, k, artifact, serial, at);
    }
    if PassedGenerated(cycle, serial) {
      var i: nat :| Entered(cycle, i, ConfigGenerated) && cycle[i].cause == Some(Generated(serial));
      assert Entered(cycle + [a], i, ConfigGenerated);
    }
    if PassedDeployment(cycle) {
      var i: nat :|
        Entered(cycle, i, Complete) && cycle[i].from == Deploying && cycle[i].cause == Some(DeploymentEnded(true));
      assert Entered(cycle + [a], i, Complete);
    }
  }

  /** Entering the next stage of the cycle pays what that stage owes. */
  lemma PassedNext(cycle: seq<Attempt>, a: Attempt, artifact: Artifact)
    requires a.legal && a.applied
    ensures a.to == ArtifactReady && a.built == Some(artifact) ==> PassedArtifact(cycle + [a], artifact)
    ensures a.to == VerifyingMcu && PassedArtifact(cycle, artifact) ==> PassedVerifying(cycle + [a], artifact)
    ensures a.to == McuVerified && PassedVerifying(cycle, artifact) && a.recorded.Some? ==>
      PassedVerified(cycle + [a], artifact, a.recorded.value.0, a.recorded.value.1)
    ensures a.to == ConfigGenerated && a.cause == Some(Generated(a.serial)) ==> PassedGenerated(cycle + [a], a.serial)
    ensures a.to == Complete && a.from == Deploying && a.cause == Some(DeploymentEnded(true)) ==> PassedDeployment(cycle + [a])
  {
    EnteredStays(cycle, a);
    assert (cycle + [a])[|cycle|] == a && Entered(cycle + [a], |cycle|, a.to);
    if a.to == ArtifactReady && a.built == Some(artifact) {
      assert BuiltAt(cycle + [a], |cycle|, artifact);
    }
    if a.to == VerifyingMcu && PassedArtifact(cycle, artifact) {
      var i: nat :| BuiltAt(cycle, i, artifact);
      assert BuiltAt(cycle + [a], i, artifact) && Entered(cycle + [a], |cycle|, VerifyingMcu);
    }
    if a.to == McuVerified && PassedVerifying(cycle, artifact) && a.recorded.Some? {
      var i: nat, j: nat :| i < j && BuiltAt(cycle, i, artifact) && Entered(cycle, j, VerifyingMcu);
      assert VerifiedAt(cycle + [a], i, j, |cycle|, artifact, a.recorded.value.0, a.recorded.value.1);
    }
  }

  /** What the driver asks for: each step records its own evidence and no other. */
  predicate Asked(p: Payload, to: WorkflowState, u: Update, cause: Option<Choice>) {
    var from := p.state;
    && (Legal(from, to) || (from == Deploying && to == CompileRequired))
    && Justified(Attempt(from, to, true, true, u.artifact, Evidence(u), cause, p.hardware.verifiedSerial))
    && (cause.Some? && cause.value.DeploymentEnded? ==> from == Deploying && u == QUIET)
    && u.wizardBoard.None?
    && (if to == ArtifactReady then from != ArtifactReady && u.artifact.Some? else u.artifact.None?)
    && (if to == McuVerified && from != McuVerified then u.verifiedSerial.Some? && u.flashRecordedAt.Some?
        else u.verifiedSerial.None? && u.flashRecordedAt.None?)
  }

  lemma AttemptOwes(cycle: seq<Attempt>, a: Attempt, p: Payload, u: Update)
    requires Owed(cycle, p)
    requires a == Attempt(p.state, a.to, Legal(p.state, a.to), a.applied, u.artifact, Evidence(u), a.cause, p.hardware.verifiedSerial)
    requires Asked(p, a.to, u, a.cause)
    requires a.applied ==> a.legal
    requires a.applied && a.to == McuVerified ==>
      Updated(p, a.to, u).hardware.verifiedSerial != "" && Updated(p, a.to, u).hardware.flashRecordedAt > 0
    ensures !a.applied ==> Owed(cycle + [a], p)
    ensures a.applied && a.to != CompileRequired ==> Owed(cycle + [a], Updated(p, a.to, u))
  {
    hide PassedArtifact, PassedVerifying, PassedVerified, PassedGenerated, PassedDeployment;
    if p.artifact.Some? {
      PassedStays(cycle, a, p.artifact.value, p.hardware.verifiedSerial, p.hardware.flashRecordedAt);
    }
    var now := Updated(p, a.to, u);
    if a.applied && now.artifact.Some? {
      PassedNext(cycle, a, now.artifact.value);
    }
  }

  /** One attempt of the driver keeps the cycle's debts paid. */
  lemma AttemptKeeps(d: Driver, to: WorkflowState, u: Update, stage: Stage, cause: Option<Choice>)
    requires Valid(d.checkpoint) && Owed(Cycle(d.log), d.checkpoint.payload) && AttemptsOk(d.log)
    requires Asked(d.checkpoint.payload, to, u, cause)
    ensures var next := Attempted(d, to, u, stage, cause);
      && Valid(next.checkpoint) && Owed(Cycle(next.log), next.checkpoint.payload) && AttemptsOk(next.log)
      && ((next.stage == stage && State(next) == to) || (next.stage == Resume && next.checkpoint == d.checkpoint))
  {
    hide Owed, Valid, Transition, Legal, AttemptsOk, Cycle, Asked, Justified;
    var next := Attempted(d, to, u, stage, cause);
    var a := next.log[|d.log|];
    assert next.log == d.log + [a];
    CycleSnoc(d.log, a);
    AttemptJustified(d.checkpoint, a, to, u, cause);
    AttemptsSnoc(d.log, a);
    if a.applied {
      AttemptMeans(d.checkpoint, to, u);
    }
    AttemptOwes(Cycle(d.log), a, d.checkpoint.payload, u);
    if a.applied && to == CompileRequired {
      RecompiledOwes(next);
    }
  }

  lemma CycleSnoc(log: seq<Attempt>, a: Attempt)
    ensures Cycle(log + [a]) == if a.to == CompileRequired && a.applied then [] else Cycle(log) + [a]
  {
    assert (log + [a])[..|log|] == log;
  }

  lemma AttemptsSnoc(log: seq<Attempt>, a: Attempt)
    requires AttemptsOk(log) && Justified(a)
    ensures a.legal || (a.from == Deploying && a.to == CompileRequired && !a.applied) ==> AttemptsOk(log + [a])
  {
  }

  /** An attempt is justified by what it was asked for; the end of a deployment always takes effect. */
  lemma AttemptJustified(c: Checkpoint, a: Attempt, to: WorkflowState, u: Update, cause: Option<Choice>)
    requires Valid(c) && Asked(c.payload, to, u, cause)
    requires var moved := Transition(c, to, u);
      a == Attempt(c.payload.state, to, Legal(c.payload.state, to), moved.Success? && Valid(moved.value), u.artifact,
                   Evidence(u), cause, c.payload.hardware.verifiedSerial)
    ensures Justified(a)
    ensures a.legal || (a.from == Deploying && a.to == CompileRequired && !a.applied)
  {
  }

  /** What a transition that took effect leaves behind. */
  lemma AttemptMeans(c: Checkpoint, to: WorkflowState, u: Update)
    requires Transition(c, to, u).Success?
    ensures Valid(c) && Legal(c.payload.state, to) && Transition(c, to, u).value.payload == Updated(c.payload, to, u)
    ensures to == McuVerified ==>
      Updated(c.payload, to, u).hardware.verifiedSerial != "" && Updated(c.payload, to, u).hardware.flashRecordedAt > 0
  {
  }

  lemma RecompiledOwes(d: Driver)
    requires State(d) == CompileRequired
    ensures Owed(Cycle(d.log), d.checkpoint.payload)
  {
  }

  /** What an attempt leaves behind fits, when the stage it leads to fits the state it enters. */
  lemma AttemptKeepsInv(d: Driver, to: WorkflowState, u: Update, stage: Stage, cause: Option<Choice>)
    requires Inv(d) && Asked(d.checkpoint.payload, to, u, cause) && Fits(stage, to)
    ensures Inv(Attempted(d, to, u, stage, cause))
  {
    hide Valid, Owed, AttemptsOk, Asked, Attempted;
    AttemptKeeps(d, to, u, stage, cause);
  }

  lemma StageKeepsInv(d: Driver, stage: Stage)
    requires Inv(d) && Fits(stage, State(d))
    ensures Inv(d.(stage := stage))
  {
  }

  lemma ManualKeepsInv(d: Driver, verify: bool)
    requires Inv(d) && State(d) in {ArtifactReady, AwaitingFlash, VerifyingMcu}
    ensures Inv(EnterManualFlash(d, verify))
  {
    hide Inv, Attempted;
    if State(d) == ArtifactReady {
      AttemptKeepsInv(d, AwaitingFlash, QUIET, ManualFlash(verify), None);
    } else {
      StageKeepsInv(d, ManualFlash(verify));
    }
  }

  lemma GateKeepsInv(d: Driver)
    requires Inv(d)
    ensures Inv(PassGate(d))
  {
    hide Inv, EnterManualFlash;
    if Verifiable(State(d)) {
      StageKeepsInv(d, Gate);
    } else if State(d) in {ArtifactReady, AwaitingFlash, VerifyingMcu} {
      ManualKeepsInv(d, false);
    } else {
      StageKeepsInv(d, Resume);
    }
  }

  lemma GenerateKeepsInv(d: Driver, serial: string)
    requires Inv(d) && Verifiable(State(d))
    ensures Inv(Generate(d, serial))
  {
    hide Inv, Attempted;
    StageKeepsInv(d, Resume);
    if serial == "" || serial != d.checkpoint.payload.hardware.verifiedSerial {
    } else if State(d) == McuVerified {
      AttemptKeepsInv(d, ConfigGenerated, QUIET, Gate, Some(Generated(serial)));
    } else if State(d) == ConfigGenerated {
      AttemptKeepsInv(d, ReadyToDeploy, QUIET, Deployment, Some(Generated(serial)));
    } else {
      StageKeepsInv(d, Deployment);
    }
  }

  lemma ResumeKeepsInv(d: Driver, c: Choice)
    requires Inv(d) && d.stage == Resume
    ensures Inv(Next(d, c))
  {
    hide Inv, Attempted, EnterManualFlash;
    StageKeepsInv(d, Resume);
    StageKeepsInv(d, Review);
    if State(d) != Complete {
      if c == RecompileChoice {
        RecompileAsked(d.checkpoint.payload);
        AttemptKeepsInv(d, CompileRequired, QUIET, Review, Some(c));
      } else if c == ContinueRun && State(d) == Deploying {
        AttemptKeepsInv(d, ReadyToDeploy, QUIET, Review, Some(c));
      } else if c == VerifyNow && State(d) in {ArtifactReady, AwaitingFlash, VerifyingMcu} {
        ManualKeepsInv(d, true);
      }
    }
  }

  /** Choosing to compile again is legal from every state but an unresolved deployment. */
  lemma RecompileAsked(p: Payload)
    requires p.state != Complete
    ensures Legal(p.state, CompileRequired) <==> p.state != Deploying
    ensures Asked(p, CompileRequired, QUIET, Some(RecompileChoice))
  {
  }

  lemma FirmwareKeepsInv(d: Driver, c: Choice)
    requires Inv(d) && d.stage in {Review, FirmwarePhase}
    ensures Inv(Next(d, c))
  {
    hide Inv, Attempted, PassGate;
    StageKeepsInv(d, Resume);
    StageKeepsInv(d, FirmwarePhase);
    if d.stage == Review {
      if State(d) == McuVerified && c == GeometryChanged {
        AttemptKeepsInv(d, McuVerified, QUIET, FirmwarePhase, Some(c));
      }
    } else if State(d) in {HardwareSelected, CompileRequired} {
      if c.UnresolvedPins? || c.CompileFailed? || c.NoEvidence? {
        AttemptKeepsInv(d, CompileRequired, QUIET, Resume, Some(c));
      } else if c.Compiled? {
        AttemptKeepsInv(d, ArtifactReady, QUIET.(artifact := Some(c.artifact)), Delivery, Some(c));
      }
    } else {
      GateKeepsInv(d);
    }
  }

  lemma VerificationKeepsInv(d: Driver, c: Choice, stage: Stage)
    requires Inv(d) && State(d) == VerifyingMcu && stage in {Gate, Review} && c.McuSeen?
    ensures Inv(Verified(d, c.serial, c.at, stage))
  {
    hide Inv, Attempted;
    AttemptKeepsInv(d, McuVerified, QUIET.(verifiedSerial := Some(c.serial), flashRecordedAt := Some(c.at)), stage,
                    Some(McuSeen(c.serial, c.at)));
  }

  lemma DeliveryKeepsInv(d: Driver, c: Choice)
    requires Inv(d) && d.stage in {Delivery, AutoVerify}
    requires Fits(d.stage, State(d))
    ensures Inv(Next(d, c))
  {
    hide Inv, Attempted, EnterManualFlash, Verified;
    StageKeepsInv(d, Resume);
    if d.stage == Delivery {
      ManualKeepsInv(d, false);
      if c.DeliverCancelled? || c.DeliverFailed? {
        AttemptKeepsInv(d, AwaitingFlash, QUIET, Resume, Some(c));
      } else if c.DeliverByHand? {
        AttemptKeepsInv(d, AwaitingFlash, QUIET, ManualFlash(false), Some(c));
      } else if c.DeliverFlashed? {
        AttemptKeepsInv(d, VerifyingMcu, QUIET, AutoVerify, Some(c));
      }
    } else if c.McuSeen? {
      VerificationKeepsInv(d, c, Gate);
    } else if c.McuRejected? {
      AttemptKeepsInv(d, AwaitingFlash, QUIET, Resume, Some(c));
    }
  }

  lemma ManualStepKeepsInv(d: Driver, c: Choice)
    requires Inv(d) && d.stage.ManualFlash?
    requires Fits(d.stage, State(d))
    ensures Inv(Next(d, c))
  {
    hide Inv, Attempted, Verified;
    StageKeepsInv(d, Resume);
    StageKeepsInv(d, ManualFlash(true));
    if State(d) == VerifyingMcu {
      if c.McuSeen? {
        VerificationKeepsInv(d, c, Review);
      } else if c.McuRejected? {
        AttemptKeepsInv(d, AwaitingFlash, QUIET, ManualFlash(false), Some(c));
      }
    } else {
      AttemptKeepsInv(d, VerifyingMcu, QUIET, ManualFlash(true), None);
    }
  }

  lemma DeploymentKeepsInv(d: Driver, c: Choice)
    requires Inv(d) && d.stage in {Deployment, InFlight}
    requires Fits(d.stage, State(d))
    ensures Inv(Next(d, c))
  {
    hide Inv, Attempted;
    StageKeepsInv(d, Resume);
    if d.stage == InFlight {
      if c.DeploymentEnded? {
        AttemptKeepsInv(d, if c.ok then Complete else ReadyToDeploy, QUIET, Resume, Some(c));
      }
    } else if State(d) == ReadyToDeploy && c == DeployLive {
      AttemptKeepsInv(d, Deploying, QUIET, InFlight, Some(c));
    }
  }

  lemma NextKeepsInv(d: Driver, c: Choice)
    requires Inv(d)
    ensures Inv(Next(d, c))
  {
    hide Owed, AttemptsOk, Valid, Attempted, Verified, EnterManualFlash, PassGate, Generate;
    assert Fits(d.stage, State(d));
    match d.stage
    case Resume => ResumeKeepsInv(d, c);
    case Review => FirmwareKeepsInv(d, c);
    case FirmwarePhase => FirmwareKeepsInv(d, c);
    case Delivery => DeliveryKeepsInv(d, c);
    case AutoVerify => DeliveryKeepsInv(d, c);
    case ManualFlash(_) => ManualStepKeepsInv(d, c);
    case Gate =>
      StageKeepsInv(d, Resume);
      if c.Generated? {
        GenerateKeepsInv(d, c.serial);
      }
    case Deployment => DeploymentKeepsInv(d, c);
    case InFlight => DeploymentKeepsInv(d, c);
  }

  lemma {:induction false} RunKeepsInv(d: Driver, choices: seq<Choice>)
    requires Inv(d)
    ensures Inv(Run(d, choices))
    decreases |choices|
  {
    if choices != [] {
      RunKeepsInv(d, choices[..|choices| - 1]);
      NextKeepsInv(Run(d, choices[..|choices| - 1]), choices[|choices| - 1]);
    }
  }

  /**
    Any run from a new checkpoint: what is deployable was built, verified and recorded in the
    current cycle, and no transition outside the table was ever attempted but one.
   */
  lemma DeployableRuns(id: nat, board: string, mcu: string, now: int, choices: seq<Choice>)
    requires Create(id, board, mcu, now).Success?
    ensures var d := Run(Driver(Create(id, board, mcu, now).value, FirmwarePhase, []), choices);
      var p := d.checkpoint.payload;
      && Valid(d.checkpoint) && AttemptsOk(d.log)
      && (p.state in {McuVerified, ConfigGenerated, ReadyToDeploy, Deploying, Complete} ==>
            && p.artifact.Some? && p.hardware.verifiedSerial != "" && p.hardware.flashRecordedAt > 0
            && PassedVerified(Cycle(d.log), p.artifact.value, p.hardware.verifiedSerial, p.hardware.flashRecordedAt))
      && (p.state in {ConfigGenerated, ReadyToDeploy, Deploying, Complete} ==>
            PassedGenerated(Cycle(d.log), p.hardware.verifiedSerial))
      && (p.state == Complete ==> PassedDeployment(Cycle(d.log)))
      && (forall i :: 0 <= i < |d.log| && d.log[i].cause == Some(DeploymentEnded(false)) ==>
            d.log[i].from == Deploying && d.log[i].to == ReadyToDeploy && d.log[i].applied)
  {
    var start := Driver(Create(id, board, mcu, now).value, FirmwarePhase, []);
    assert Inv(start);
    RunKeepsInv(start, choices);
    EndedBadly(Run(start, choices).log);
  }

  /** A deployment that ended badly is recorded as one that may be tried again. */
  lemma EndedBadly(log: seq<Attempt>)
    requires AttemptsOk(log)
    ensures forall i :: 0 <= i < |log| && log[i].cause == Some(DeploymentEnded(false)) ==>
      log[i].from == Deploying && log[i].to == ReadyToDeploy && log[i].applied
  {
    forall i | 0 <= i < |log| && log[i].cause == Some(DeploymentEnded(false))
      ensures log[i].from == Deploying && log[i].to == ReadyToDeploy && log[i].applied
    {
      assert Justified(log[i]);
    }
  }

  /** The one refused attempt: recompiling is offered while a deployment is unresolved, and then changes nothing. */
  lemma RecompilingIsRefused(d: Driver)
    requires Inv(d) && d.stage == Resume && State(d) != Complete
    ensures var next := Next(d, RecompileChoice);
      && |next.log| == |d.log| + 1
      && (State(d) == Deploying <==> !next.log[|d.log|].legal)
      && (State(d) == Deploying <==> next.checkpoint == d.checkpoint)
  {
    RecompileAsked(d.checkpoint.payload);
    if State(d) != Deploying {
      RecompileTakesEffect(d.checkpoint);
    }
  }

  lemma RecompileTakesEffect(c: Checkpoint)
    requires Valid(c) && c.payload.state != Deploying
    ensures Transition(c, CompileRequired, QUIET).Success? && Valid(Transition(c, CompileRequired, QUIET).value)
    ensures Transition(c, CompileRequired, QUIET).value != c
  {
  }

  // ----- what each decision does -----

  /** Without new evidence a legal transition is never refused, but for the first entry of MCU_VERIFIED. */
  lemma QuietTakesEffect(d: Driver, to: WorkflowState, stage: Stage, cause: Option<Choice>)
    requires Inv(d) && Legal(State(d), to) && to != ArtifactReady && (to == McuVerified ==> State(d) == McuVerified)
    requires NeedsArtifact(to) ==> NeedsArtifact(State(d))
    ensures var next, p := Attempted(d, to, QUIET, stage, cause), d.checkpoint.payload;
      && State(next) == to && next.stage == stage
      && next.checkpoint.payload.sequence == p.sequence + 1 && next.checkpoint.payload.hardware == p.hardware
  {
    hide PassedArtifact, PassedVerifying, PassedVerified, PassedGenerated, PassedDeployment, AttemptsOk;
  }

  /** An artifact is recorded exactly when it is for the MCU of the checkpoint; otherwise the process ends. */
  lemma ArtifactTakesEffect(d: Driver, artifact: Artifact, stage: Stage, cause: Option<Choice>)
    requires Inv(d) && Legal(State(d), ArtifactReady)
    ensures var next := Attempted(d, ArtifactReady, QUIET.(artifact := Some(artifact)), stage, cause);
      if artifact.mcu == d.checkpoint.payload.hardware.mcu && artifact.consistent then
        State(next) == ArtifactReady && next.stage == stage && next.checkpoint.payload.artifact == Some(artifact)
      else next.checkpoint == d.checkpoint && next.stage == Resume
  {
    hide PassedArtifact, PassedVerifying, PassedVerified, PassedGenerated, PassedDeployment, AttemptsOk;
  }

  /** Flash evidence is recorded exactly when it names a serial and a time. */
  lemma EvidenceTakesEffect(d: Driver, serial: string, at: int, stage: Stage)
    requires Inv(d) && State(d) == VerifyingMcu
    ensures var next := Verified(d, serial, at, stage);
      if serial != "" && at > 0 then
        && State(next) == McuVerified && next.stage == stage
        && next.checkpoint.payload.hardware.verifiedSerial == serial && next.checkpoint.payload.hardware.flashRecordedAt == at
      else next.checkpoint == d.checkpoint && next.stage == Resume
  {
    hide PassedArtifact, PassedVerifying, PassedVerified, PassedGenerated, PassedDeployment, AttemptsOk;
  }

  /** The offers to an interrupted workflow: an unresolved deployment may be tried again, everything else may be rebuilt. */
  lemma ResumeDecides(d: Driver, c: Choice)
    requires Inv(d) && d.stage == Resume && State(d) != Complete
    ensures var next := Next(d, c);
      && (c == ContinueRun ==> State(next) == (if State(d) == Deploying then ReadyToDeploy else State(d)) && next.stage == Review)
      && (c == RecompileChoice && State(d) != Deploying ==> State(next) == CompileRequired && next.stage == Review)
      && (c == VerifyNow && State(d) in {ArtifactReady, AwaitingFlash, VerifyingMcu} ==>
            && next.stage == ManualFlash(true)
            && State(next) == if State(d) == ArtifactReady then AwaitingFlash else State(d))
      && (c == ReviewZ ==> next.checkpoint == d.checkpoint && (next.stage == Review <==> State(d) == McuVerified))
  {
    hide Inv, Attempted;
    if c == ContinueRun && State(d) == Deploying {
      QuietTakesEffect(d, ReadyToDeploy, Review, Some(c));
    } else if c == RecompileChoice && State(d) != Deploying {
      RecompileAsked(d.checkpoint.payload);
      QuietTakesEffect(d, CompileRequired, Review, Some(c));
    } else if c == VerifyNow && State(d) == ArtifactReady {
      QuietTakesEffect(d, AwaitingFlash, ManualFlash(true), None);
    }
  }

  /** A changed geometry is persisted with the verified board; nothing else is touched by the review. */
  lemma ReviewDecides(d: Driver, c: Choice)
    requires Inv(d) && d.stage == Review
    ensures var next := Next(d, c);
      && (c == GeometryUnchanged ==> next == d.(stage := FirmwarePhase))
      && (c == GeometryChanged && State(d) == McuVerified ==>
            && State(next) == McuVerified && next.stage == FirmwarePhase
            && next.checkpoint.payload.sequence == d.checkpoint.payload.sequence + 1
            && next.checkpoint.payload.hardware == d.checkpoint.payload.hardware)
  {
    hide Inv, Attempted;
    if c == GeometryChanged && State(d) == McuVerified {
      QuietTakesEffect(d, McuVerified, FirmwarePhase, Some(c));
    }
  }

  /** What compiling leads to: only a consistent artifact for the right MCU goes on. */
  lemma FirmwareDecides(d: Driver, c: Choice)
    requires Inv(d) && d.stage == FirmwarePhase && State(d) in {HardwareSelected, CompileRequired}
    ensures var next := Next(d, c);
      && (c.Compiled? ==>
            if c.artifact.mcu == d.checkpoint.payload.hardware.mcu && c.artifact.consistent then
              && State(next) == ArtifactReady && next.stage == Delivery
              && next.checkpoint.payload.artifact == Some(c.artifact)
            else next.checkpoint == d.checkpoint && next.stage == Resume)
      && (c == UnresolvedPins || c == CompileFailed || c == NoEvidence ==>
            State(next) == CompileRequired && next.stage == Resume)
  {
    hide Inv, Attempted;
    if c.Compiled? {
      ArtifactTakesEffect(d, c.artifact, Delivery, Some(c));
    } else {
      QuietTakesEffect(d, CompileRequired, Resume, Some(c));
    }
  }

  lemma DeliveryAttempts(d: Driver, c: Choice)
    requires Inv(d) && d.stage == Delivery
    ensures State(d) == ArtifactReady
    ensures c == DeliverFlashed ==> Next(d, c) == Attempted(d, VerifyingMcu, QUIET, AutoVerify, Some(c))
    ensures c == DeliverByHand ==> Next(d, c) == Attempted(d, AwaitingFlash, QUIET, ManualFlash(false), Some(c))
    ensures c == DeliverNothing ==> Next(d, c) == Attempted(d, AwaitingFlash, QUIET, ManualFlash(false), None)
    ensures c == DeliverCancelled || c == DeliverFailed ==> Next(d, c) == Attempted(d, AwaitingFlash, QUIET, Resume, Some(c))
  {
    hide Attempted, PassGate, Generate, Verified, Valid, Owed, AttemptsOk;
  }

  /** What delivering leads to: only a flash that succeeded leads to verification. */
  lemma DeliveryDecides(d: Driver, c: Choice)
    requires Inv(d) && d.stage == Delivery
    ensures var next := Next(d, c);
      && (c == DeliverFlashed ==> State(next) == VerifyingMcu && next.stage == AutoVerify)
      && (c == DeliverCancelled || c == DeliverFailed ==> State(next) == AwaitingFlash && next.stage == Resume)
      && (c == DeliverByHand || c == DeliverNothing ==> State(next) == AwaitingFlash && next.stage == ManualFlash(false))
  {
    hide Inv, Next, Attempted;
    DeliveryAttempts(d, c);
    if c == DeliverFlashed {
      QuietTakesEffect(d, VerifyingMcu, AutoVerify, Some(c));
    } else if c == DeliverByHand {
      QuietTakesEffect(d, AwaitingFlash, ManualFlash(false), Some(c));
    } else if c == DeliverNothing {
      QuietTakesEffect(d, AwaitingFlash, ManualFlash(false), None);
    } else {
      QuietTakesEffect(d, AwaitingFlash, Resume, Some(c));
    }
  }

  /** A verified board is recorded with its serial and time; a rejected one waits for another flash. */
  lemma VerificationDecides(d: Driver, c: Choice)
    requires Inv(d) && State(d) == VerifyingMcu && d.stage in {AutoVerify, ManualFlash(true)}
    ensures var next := Next(d, c);
      && (c.McuSeen? && c.serial != "" && c.at > 0 ==>
            && State(next) == McuVerified && next.stage == (if d.stage == AutoVerify then Gate else Review)
            && next.checkpoint.payload.hardware.verifiedSerial == c.serial
            && next.checkpoint.payload.hardware.flashRecordedAt == c.at)
      && (c.McuSeen? && !(c.serial != "" && c.at > 0) ==> next.checkpoint == d.checkpoint && next.stage == Resume)
      && (c == McuRejected ==>
            State(next) == AwaitingFlash && next.stage == if d.stage == AutoVerify then Resume else ManualFlash(false))
  {
    hide Inv, Attempted, Verified;
    if c.McuSeen? {
      EvidenceTakesEffect(d, c.serial, c.at, if d.stage == AutoVerify then Gate else Review);
    } else if c == McuRejected {
      QuietTakesEffect(d, AwaitingFlash, if d.stage == AutoVerify then Resume else ManualFlash(false), Some(c));
    }
  }

  /** The pause is left for verification when the operator asks for it. */
  lemma PauseDecides(d: Driver, c: Choice)
    requires Inv(d) && d.stage.ManualFlash? && State(d) == AwaitingFlash
    ensures d.stage.verify ==> State(Next(d, c)) == (if c == Die then AwaitingFlash else VerifyingMcu)
    ensures !d.stage.verify ==> Next(d, c) == d.(stage := if c == Die then Resume else ManualFlash(c == AskVerify))
  {
    hide Inv, Attempted;
    if d.stage.verify && c != Die {
      QuietTakesEffect(d, VerifyingMcu, ManualFlash(true), None);
    }
  }

  /** Generated configuration leads to deployment, one persisted step at a time, for the verified board alone. */
  lemma GenerationDecides(d: Driver, serial: string)
    requires Inv(d) && d.stage == Gate
    ensures var next := Next(d, Generated(serial));
      if serial == d.checkpoint.payload.hardware.verifiedSerial then
        && State(next) == (match State(d) case McuVerified => ConfigGenerated case ConfigGenerated => ReadyToDeploy case s => s)
        && next.stage == (if State(d) == McuVerified then Gate else Deployment)
      else next.checkpoint == d.checkpoint && next.stage == Resume
  {
    assert Verifiable(State(d)) && d.checkpoint.payload.hardware.verifiedSerial != "";
    hide Inv, Attempted;
    if State(d) == McuVerified {
      QuietTakesEffect(d, ConfigGenerated, Gate, Some(Generated(serial)));
    } else if State(d) == ConfigGenerated {
      QuietTakesEffect(d, ReadyToDeploy, Deployment, Some(Generated(serial)));
    }
  }

  /** Only a configuration that waits for it is deployed; skipping leaves it waiting. */
  lemma DeploymentDecides(d: Driver, c: Choice)
    requires Inv(d) && d.stage == Deployment
    ensures c == SkipDeployment ==> Next(d, c) == d.(stage := Resume)
    ensures c == DeployLive && State(d) == ReadyToDeploy ==> State(Next(d, c)) == Deploying && Next(d, c).stage == InFlight
    ensures c == DeployLive && State(d) != ReadyToDeploy ==> Next(d, c) == d.(stage := Resume)
  {
    hide Inv, Attempted;
    if c == DeployLive && State(d) == ReadyToDeploy {
      QuietTakesEffect(d, Deploying, InFlight, Some(c));
    }
  }

  /** How a deployment ended decides what is persisted, and nothing else does while it is in flight. */
  lemma DeploymentIsRecorded(d: Driver, c: Choice)
    requires Inv(d) && d.stage == InFlight
    ensures var next := Next(d, c);
      && (c == DeploymentEnded(true) ==> State(next) == Complete && next.stage == Resume)
      && (c == DeploymentEnded(false) ==> State(next) == ReadyToDeploy && next.stage == Resume)
      && (!c.DeploymentEnded? ==> next.checkpoint == d.checkpoint && next.log == d.log)
  {
    assert Fits(d.stage, State(d));
    hide Inv, Attempted;
    if c.DeploymentEnded? {
      QuietTakesEffect(d, if c.ok then Complete else ReadyToDeploy, Resume, Some(c));
    }
  }
}

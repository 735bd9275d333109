/**
  Several processes that drive the firmware workflow over the one checkpoint file.

  A process holds the revision it read or wrote last, and persists every transition at once under the
  compare-and-swap; a write that is refused ends the process.  A stored checkpoint comes with the
  attempts that led to it.
 */
module SharedWorkflow {
  import opened Prelude
  import Store = Checkpoint
  import opened WorkflowDriver

  type Process = Store.Process

  /** What is on disk. */
  datatype Copy = Copy(checkpoint: Store.Checkpoint, log: seq<Attempt>)

  datatype World = World(disk: Option<Copy>, drivers: map<Process, Driver>, nextId: nat)

  datatype Action =
    | Load(p: Process)
    | Begin(p: Process, board: string, mcu: string, now: int, initial: Store.Revision)
    | Decide(p: Process, choice: Choice)
    | Discard(p: Process)
    | Crash(p: Process)

  const START := World(None, map[], 0)

  function Revision(w: World): Store.Revision {
    if w.disk.None? then None else Some(w.disk.value.checkpoint)
  }

  /** The process persists its driver, or ends. */
  function Persist(w: World, p: Process, d: Driver, expected: Store.Revision): World {
    if Store.WriteEffect(Revision(w), d.checkpoint, expected).Success?
    then w.(disk := Some(Copy(d.checkpoint, d.log)), drivers := w.drivers[p := d])
    else w.(drivers := w.drivers - {p})
  }

  function Step(w: World, a: Action): World {
    match a
    case Load(p) =>
      if w.disk.Some? && Store.Valid(w.disk.value.checkpoint)
      then w.(drivers := w.drivers[p := Driver(w.disk.value.checkpoint, Resume, w.disk.value.log)]) else w
    case Begin(p, board, mcu, now, initial) =>
      var created := Store.Create(w.nextId, board, mcu, now);
      if created.Failure? then w
      else Persist(w, p, Driver(created.value, FirmwarePhase, []), initial).(nextId := w.nextId + 1)
    case Decide(p, choice) =>
      if p !in w.drivers then w
      else
        var d, next := w.drivers[p], Next(w.drivers[p], choice);
        if next.checkpoint == d.checkpoint then w.(drivers := w.drivers[p := next])
        else Persist(w, p, next, Some(d.checkpoint))
    case Discard(p) =>
      if p !in w.drivers then w
      else
        var gone := Store.DiscardEffect(Revision(w), Some(w.drivers[p].checkpoint));
        World(if gone.Success? then None else w.disk, w.drivers - {p}, w.nextId)
    case Crash(p) => w.(drivers := w.drivers - {p})
  }

  function Run(w: World, actions: seq<Action>): World {
    if actions == [] then w else Step(Run(w, actions[..|actions| - 1]), actions[|actions| - 1])
  }

  // ----- every driver keeps its cycle's debts paid -----

  ghost predicate CopyOk(disk: Option<Copy>) {
    disk.Some? ==> WorkflowDriver.Inv(Driver(disk.value.checkpoint, Resume, disk.value.log))
  }

  ghost predicate DriversOk(w: World) {
    CopyOk(w.disk) && forall p :: p in w.drivers ==> WorkflowDriver.Inv(w.drivers[p])
  }

  lemma PersistKeepsDrivers(w: World, p: Process, d: Driver, expected: Store.Revision)
    requires DriversOk(w) && WorkflowDriver.Inv(d)
    ensures DriversOk(Persist(w, p, d, expected))
  {
    hide WorkflowDriver.Inv;
    assert WorkflowDriver.Inv(Driver(d.checkpoint, Resume, d.log)) by {
      StageKeepsInv(d, Resume);
      assert d.(stage := Resume) == Driver(d.checkpoint, Resume, d.log);
    }
  }

  lemma StepKeepsDrivers(w: World, a: Action)
    requires DriversOk(w)
    ensures DriversOk(Step(w, a))
  {
    hide WorkflowDriver.Inv, Next, Persist, Store.Create;
    match a
    case Load(p) =>
    case Begin(p, board, mcu, now, initial) =>
      var created := Store.Create(w.nextId, board, mcu, now);
      if created.Success? {
        NewDriver(w.nextId, board, mcu, now);
        PersistKeepsDrivers(w, p, Driver(created.value, FirmwarePhase, []), initial);
      }
    case Decide(p, choice) =>
      if p in w.drivers {
        NextKeepsInv(w.drivers[p], choice);
        PersistKeepsDrivers(w, p, Next(w.drivers[p], choice), Some(w.drivers[p].checkpoint));
      }
    case Discard(p) =>
    case Crash(p) =>
  }

  lemma NewDriver(id: nat, board: string, mcu: string, now: int)
    requires Store.Create(id, board, mcu, now).Success?
    ensures WorkflowDriver.Inv(Driver(Store.Create(id, board, mcu, now).value, FirmwarePhase, []))
  {
  }

  // ----- every run is a run of the store -----

  /** The same file, and each process holding the revision of its driver. */
  ghost predicate Same(w: World, s: Store.World) {
    && s.disk == Revision(w) && s.nextId == w.nextId && s.held.Keys == w.drivers.Keys
    && forall p :: p in w.drivers ==> s.held[p] == Holding(w.drivers[p])
  }

  function Holding(d: Driver): Store.Held {
    Store.Held(d.checkpoint, Some(d.checkpoint), true, false)
  }

  /** One transition leads from the checkpoint to the other. */
  ghost predicate Moved(c: Store.Checkpoint, to: Store.WorkflowState, u: Store.Update, next: Store.Checkpoint) {
    Store.Transition(c, to, u) == Success(next) && Store.Valid(next) && next != c
  }

  /** A decision makes one transition or none; a deployment is only begun with a transition. */
  ghost predicate OneMove(d: Driver, next: Driver) {
    && (next.checkpoint == d.checkpoint || exists to, u :: Moved(d.checkpoint, to, u, next.checkpoint))
    && (next.stage == InFlight && next.checkpoint == d.checkpoint ==> d.stage == InFlight)
  }

  lemma AttemptMoves(d: Driver, to: Store.WorkflowState, u: Store.Update, stage: Stage, cause: Option<Choice>)
    ensures OneMove(d, Attempted(d, to, u, stage, cause))
  {
    hide Store.Validate, Store.Legal, Store.Updated;
    var next := Attempted(d, to, u, stage, cause);
    if Store.Transition(d.checkpoint, to, u).Success? && next.checkpoint != d.checkpoint {
      assert Moved(d.checkpoint, to, u, next.checkpoint);
    }
    if Store.Transition(d.checkpoint, to, u).Success? {
      Store.TransitionShape(d.checkpoint, to, u);
    }
  }

  lemma ManualMoves(d: Driver, verify: bool)
    ensures OneMove(d, EnterManualFlash(d, verify))
  {
    hide Attempted, Moved;
    AttemptMoves(d, Store.AwaitingFlash, QUIET, ManualFlash(verify), None);
  }

  lemma GateMoves(d: Driver)
    ensures OneMove(d, PassGate(d))
  {
    hide EnterManualFlash, Moved;
    ManualMoves(d, false);
  }

  lemma GenerateMoves(d: Driver, serial: string)
    ensures OneMove(d, Generate(d, serial))
  {
    hide Attempted, Moved;
    AttemptMoves(d, Store.ConfigGenerated, QUIET, Gate, Some(Generated(serial)));
    AttemptMoves(d, Store.ReadyToDeploy, QUIET, Deployment, Some(Generated(serial)));
  }

  lemma VerifiedMoves(d: Driver, serial: string, at: int, stage: Stage)
    ensures OneMove(d, Verified(d, serial, at, stage))
  {
    AttemptMoves(d, Store.McuVerified, QUIET.(verifiedSerial := Some(serial), flashRecordedAt := Some(at)), stage,
                 Some(McuSeen(serial, at)));
  }

  lemma EarlyMoves(d: Driver, c: Choice)
    requires d.stage in {Resume, Review, FirmwarePhase}
    ensures OneMove(d, Next(d, c))
  {
    hide Attempted, EnterManualFlash, PassGate, Moved;
    ManualMoves(d, true);
    GateMoves(d);
    AttemptMoves(d, Store.CompileRequired, QUIET, Review, Some(c));
    AttemptMoves(d, Store.ReadyToDeploy, QUIET, Review, Some(c));
    AttemptMoves(d, Store.McuVerified, QUIET, FirmwarePhase, Some(c));
    AttemptMoves(d, Store.CompileRequired, QUIET, Resume, Some(c));
    if c.Compiled? {
      AttemptMoves(d, Store.ArtifactReady, QUIET.(artifact := Some(c.artifact)), Delivery, Some(c));
    }
  }

  lemma LateMoves(d: Driver, c: Choice)
    requires d.stage !in {Resume, Review, FirmwarePhase}
    ensures OneMove(d, Next(d, c))
  {
    hide Attempted, EnterManualFlash, Verified, Generate, Moved;
    ManualMoves(d, false);
    AttemptMoves(d, Store.AwaitingFlash, QUIET, Resume, Some(c));
    AttemptMoves(d, Store.AwaitingFlash, QUIET, ManualFlash(false), Some(c));
    AttemptMoves(d, Store.VerifyingMcu, QUIET, AutoVerify, Some(c));
    AttemptMoves(d, Store.VerifyingMcu, QUIET, ManualFlash(true), None);
    AttemptMoves(d, Store.Deploying, QUIET, InFlight, Some(c));
    AttemptMoves(d, Store.Complete, QUIET, Resume, Some(c));
    AttemptMoves(d, Store.ReadyToDeploy, QUIET, Resume, Some(c));
    if c.McuSeen? {
      VerifiedMoves(d, c.serial, c.at, Gate);
      VerifiedMoves(d, c.serial, c.at, Review);
    }
    if c.Generated? {
      GenerateMoves(d, c.serial);
    }
  }

  lemma NextMoves(d: Driver, c: Choice)
    ensures OneMove(d, Next(d, c))
  {
    hide Next, OneMove;
    if d.stage in {Resume, Review, FirmwarePhase} {
      EarlyMoves(d, c);
    } else {
      LateMoves(d, c);
    }
  }

  lemma RunOne(s: Store.World, a: Store.Action)
    ensures Store.Run(s, [a]) == Store.Step(s, a)
  {
    assert [a][..0] == [];
    assert Store.Run(s, []) == s;
  }

  lemma RunTwo(s: Store.World, a: Store.Action, b: Store.Action)
    ensures Store.Run(s, [a, b]) == Store.Step(Store.Step(s, a), b)
  {
    RunOne(s, a);
    assert [a, b][..1] == [a];
  }

  /** Advancing and writing back is persisting a new revision; or the process ends. */
  lemma DecisionIsSimulated(w: World, s: Store.World, p: Process, next: Driver) returns (more: seq<Store.Action>)
    requires Same(w, s) && p in w.drivers && OneMove(w.drivers[p], next) && next.checkpoint != w.drivers[p].checkpoint
    ensures Same(Persist(w, p, next, Some(w.drivers[p].checkpoint)), Store.Run(s, more))
  {
    hide Moved, Store.Validate, Store.Transition;
    var d := w.drivers[p];
    if Store.WriteEffect(Revision(w), next.checkpoint, Some(d.checkpoint)).Success? {
      var to, u :| Moved(d.checkpoint, to, u, next.checkpoint);
      more := [Store.Advance(p, to, u), Store.WriteBack(p)];
      RunTwo(s, more[0], more[1]);
      MovedMeans(d.checkpoint, to, u, next.checkpoint);
    } else {
      more := [Store.Crash(p)];
      RunOne(s, more[0]);
    }
  }

  lemma MovedMeans(c: Store.Checkpoint, to: Store.WorkflowState, u: Store.Update, next: Store.Checkpoint)
    requires Moved(c, to, u, next)
    ensures Store.Transition(c, to, u) == Success(next)
  {
  }

  lemma BeginIsSimulated(w: World, s: Store.World, a: Action) returns (more: seq<Store.Action>)
    requires Same(w, s) && Store.Inv(s) && a.Begin?
    ensures Same(Step(w, a), Store.Run(s, more))
  {
    hide Same, Store.Inv, Store.Create, Store.WriteEffect, Store.Step, Store.Run;
    var created := Store.Create(w.nextId, a.board, a.mcu, a.now);
    if created.Failure? {
      more := [];
      NothingDone(s);
    } else if Store.WriteEffect(Revision(w), created.value, a.initial).Success? {
      more := [Store.CreateNew(a.p, a.board, a.mcu, a.now, a.initial), Store.WriteBack(a.p)];
      RunTwo(s, more[0], more[1]);
      BeginStored(w, s, a);
    } else {
      more := [Store.CreateNew(a.p, a.board, a.mcu, a.now, None), Store.Crash(a.p)];
      RunTwo(s, more[0], more[1]);
      BeginRefused(w, s, a);
    }
  }

  lemma NothingDone(s: Store.World)
    ensures Store.Run(s, []) == s
  {
  }

  lemma BeginStored(w: World, s: Store.World, a: Action)
    requires Same(w, s) && Store.Inv(s) && a.Begin? && Store.Create(w.nextId, a.board, a.mcu, a.now).Success?
    requires Store.WriteEffect(Revision(w), Store.Create(w.nextId, a.board, a.mcu, a.now).value, a.initial).Success?
    ensures Same(Step(w, a),
                 Store.Step(Store.Step(s, Store.CreateNew(a.p, a.board, a.mcu, a.now, a.initial)), Store.WriteBack(a.p)))
  {
    hide Store.Create, Store.Validate, Store.HeldOk, Store.HistoryOk, Store.FreshApart;
    Store.DiskInHistory(s.disk, s.history);
  }

  lemma BeginRefused(w: World, s: Store.World, a: Action)
    requires Same(w, s) && a.Begin? && Store.Create(w.nextId, a.board, a.mcu, a.now).Success?
    requires Store.WriteEffect(Revision(w), Store.Create(w.nextId, a.board, a.mcu, a.now).value, a.initial).Failure?
    ensures Same(Step(w, a),
                 Store.Step(Store.Step(s, Store.CreateNew(a.p, a.board, a.mcu, a.now, None)), Store.Crash(a.p)))
  {
    hide Store.Create, Store.Validate, Store.WriteEffect;
  }

  /** Each step of the drivers is some steps of the store. */
  lemma StepIsSimulated(w: World, s: Store.World, a: Action) returns (more: seq<Store.Action>)
    requires Same(w, s) && Store.Inv(s)
    ensures Same(Step(w, a), Store.Run(s, more))
  {
    hide Next, Persist, OneMove, Store.Create, Store.Validate, Store.HeldOk, Store.HistoryOk, Store.FreshApart;
    more := [];
    NothingDone(s);
    match a
    case Load(p) =>
      more := [Store.Load(p)];
      RunOne(s, more[0]);
    case Begin(p, board, mcu, now, initial) =>
      more := BeginIsSimulated(w, s, a);
    case Decide(p, choice) =>
      if p in w.drivers {
        NextMoves(w.drivers[p], choice);
        if Next(w.drivers[p], choice).checkpoint != w.drivers[p].checkpoint {
          more := DecisionIsSimulated(w, s, p, Next(w.drivers[p], choice));
        }
      }
    case Discard(p) =>
      if p in w.drivers {
        more := [Store.DiscardHeld(p), Store.Crash(p)];
        RunTwo(s, more[0], more[1]);
      }
    case Crash(p) =>
      more := [Store.Crash(p)];
      RunOne(s, more[0]);
  }

  // ----- deployments in flight -----

  /** No two processes in flight hold the same revision. */
  ghost predicate FlightsApart(w: World) {
    forall p, q :: p in w.drivers && q in w.drivers && p != q && w.drivers[p].stage == w.drivers[q].stage == InFlight ==>
      w.drivers[p].checkpoint != w.drivers[q].checkpoint
  }

  /** What a process moves to was never stored, while every process holds what was. */
  lemma MovedIsNew(w: World, s: Store.World, p: Process, next: Driver, q: Process)
    requires Same(w, s) && Store.Inv(s) && p in w.drivers && q in w.drivers
    requires OneMove(w.drivers[p], next) && next.checkpoint != w.drivers[p].checkpoint
    requires Revision(w) == Some(w.drivers[p].checkpoint)
    ensures next.checkpoint != w.drivers[q].checkpoint
  {
    hide Moved, Store.Validate, Store.Transition;
    var c, now := w.drivers[p].checkpoint, next.checkpoint;
    var to, u :| Moved(c, to, u, now);
    MovedMeans(c, to, u, now);
    Store.TransitionShape(c, to, u);
    assert Store.HeldOk(s.history, s.nextId, s.held[q]);
    var k :| 0 <= k < |s.history| && s.history[k] == w.drivers[q].checkpoint;
    assert s.history[|s.history| - 1] == c;
  }

  lemma StepKeepsFlightsApart(w: World, s: Store.World, a: Action)
    requires Same(w, s) && Store.Inv(s) && FlightsApart(w)
    ensures FlightsApart(Step(w, a))
  {
    hide Same, Store.Inv, OneMove, Next;
    if a.Decide? && a.p in w.drivers {
      var d, next := w.drivers[a.p], Next(w.drivers[a.p], a.choice);
      NextMoves(d, a.choice);
      assert next.stage == InFlight && next.checkpoint == d.checkpoint ==> d.stage == InFlight by { FlightBegins(d, next); }
      if next.checkpoint != d.checkpoint && Revision(w) == Some(d.checkpoint) {
        forall q | q in w.drivers ensures next.checkpoint != w.drivers[q].checkpoint {
          MovedIsNew(w, s, a.p, next, q);
        }
      }
    }
  }

  lemma FlightBegins(d: Driver, next: Driver)
    requires OneMove(d, next)
    ensures next.stage == InFlight && next.checkpoint == d.checkpoint ==> d.stage == InFlight
  {
  }

  /** Every interleaving of drivers is a run of the store, and keeps what both promise. */
  lemma {:induction false} SharedRuns(actions: seq<Action>) returns (trace: seq<Store.Action>)
    ensures Same(Run(START, actions), Store.Run(Store.START, trace)) && Store.Inv(Store.Run(Store.START, trace))
    ensures DriversOk(Run(START, actions)) && FlightsApart(Run(START, actions))
    decreases |actions|
  {
    hide DriversOk, FlightsApart, Store.Inv, Step, Store.Step;
    if actions == [] {
      trace := [];
      Store.RunsAreLinear(trace);
      Started();
    } else {
      var init, a := actions[..|actions| - 1], actions[|actions| - 1];
      var before := SharedRuns(init);
      var w, s := Run(START, init), Store.Run(Store.START, before);
      StepKeepsDrivers(w, a);
      StepKeepsFlightsApart(w, s, a);
      var more := StepIsSimulated(w, s, a);
      trace := before + more;
      Store.RunAppend(Store.START, before, more);
      Store.RunsAreLinear(trace);
    }
  }

  lemma Started()
    ensures DriversOk(START) && FlightsApart(START)
  {
  }

  /**
    Over any interleaving of any processes: what is deployable on disk was built, verified and recorded
    in its current cycle.
   */
  lemma SharedDeployability(actions: seq<Action>)
    ensures var w := Run(START, actions);
      w.disk.Some? ==>
        var p, cycle := w.disk.value.checkpoint.payload, Cycle(w.disk.value.log);
        && Store.Valid(w.disk.value.checkpoint) && AttemptsOk(w.disk.value.log)
        && (Verifiable(p.state) ==>
              && p.artifact.Some? && p.hardware.verifiedSerial != "" && p.hardware.flashRecordedAt > 0
              && PassedVerified(cycle, p.artifact.value, p.hardware.verifiedSerial, p.hardware.flashRecordedAt))
        && (HasConfiguration(p.state) ==> PassedGenerated(cycle, p.hardware.verifiedSerial))
        && (p.state == Store.Complete ==> PassedDeployment(cycle))
        && (forall i :: 0 <= i < |w.disk.value.log| && w.disk.value.log[i].cause == Some(DeploymentEnded(false)) ==>
              var a := w.disk.value.log[i];
              a.from == Store.Deploying && a.to == Store.ReadyToDeploy && a.applied)
  {
    hide Run, Same, FlightsApart, Store.Inv, Store.Validate, PassedVerified, PassedGenerated, PassedDeployment, AttemptsOk;
    var trace := SharedRuns(actions);
    if Run(START, actions).disk.Some? {
      EndedBadly(Run(START, actions).disk.value.log);
    }
  }

  /** Of two deployments in flight at once, at most one can still record how it ended. */
  lemma OneDeploymentIsRecorded(actions: seq<Action>, p: Process, q: Process)
    requires var w := Run(START, actions);
      p in w.drivers && q in w.drivers && p != q && w.drivers[p].stage == w.drivers[q].stage == InFlight
    ensures var w := Run(START, actions);
      !(Revision(w) == Some(w.drivers[p].checkpoint) && Revision(w) == Some(w.drivers[q].checkpoint))
  {
    hide Run, Same, DriversOk, Store.Inv;
    var trace := SharedRuns(actions);
  }
}

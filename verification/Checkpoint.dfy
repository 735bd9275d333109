/**
  The durable firmware checkpoint: its transitions, its integrity, and the compare-and-swap that
  several processes use on the one copy on disk.

  SHA-256 is modelled by an injective constructor, so the digest of a stored checkpoint stands for
  its bytes and a storage revision is the stored checkpoint itself.
 */
module Checkpoint {
  import opened Prelude

  datatype WorkflowState =
    | HardwareSelected | CompileRequired | ArtifactReady | AwaitingFlash | VerifyingMcu
    | McuVerified | ConfigGenerated | ReadyToDeploy | Deploying | Complete

  function Successors(s: WorkflowState): set<WorkflowState> {
    match s
    case HardwareSelected => {CompileRequired, ArtifactReady}
    case CompileRequired => {ArtifactReady}
    case ArtifactReady => {CompileRequired, AwaitingFlash, VerifyingMcu}
    case AwaitingFlash => {CompileRequired, VerifyingMcu}
    case VerifyingMcu => {CompileRequired, AwaitingFlash, McuVerified}
    case McuVerified => {CompileRequired, ConfigGenerated}
    case ConfigGenerated => {CompileRequired, ReadyToDeploy}
    case ReadyToDeploy => {CompileRequired, Deploying}
    case Deploying => {ReadyToDeploy, Complete}
    case Complete => {CompileRequired}
  }

  predicate Legal(current: WorkflowState, target: WorkflowState) {
    target == current || target in Successors(current)
  }

  /** `consistent` stands for the checks of the build evidence that are not modelled. */
  datatype Artifact = Artifact(mcu: string, consistent: bool)

  datatype Hardware = Hardware(board: string, mcu: string, verifiedSerial: string, flashRecordedAt: int)

  datatype Payload = Payload(id: nat, sequence: int, state: WorkflowState, hardware: Hardware,
                             wizardBoard: string, artifact: Option<Artifact>, lastError: string, updatedAt: int)

  datatype Digest = Sha256(of: Payload)
  datatype Checkpoint = Checkpoint(payload: Payload, integrity: Digest)

  datatype WorkflowError = Corrupt | Incompatible | IllegalTransition | MissingEvidence | ConflictOnDisk

  function Sealed(payload: Payload): Checkpoint {
    Checkpoint(payload, Sha256(payload))
  }

  predicate NeedsArtifact(s: WorkflowState) {
    s !in {HardwareSelected, CompileRequired}
  }

  function Validate(c: Checkpoint): Result<(), WorkflowError> {
    var p := c.payload;
    if c.integrity != Sha256(p) then Failure(Corrupt)
    else if p.sequence < 1 then Failure(Corrupt)
    else if p.hardware.board == "" || p.hardware.mcu == "" || p.wizardBoard != p.hardware.board then Failure(Corrupt)
    else if NeedsArtifact(p.state) && p.artifact.None? then Failure(Corrupt)
    else if NeedsArtifact(p.state) && (p.artifact.value.mcu != p.hardware.mcu || !p.artifact.value.consistent) then
      Failure(Incompatible)
    else Success(())
  }

  predicate Valid(c: Checkpoint) {
    Validate(c).Success?
  }

  /** A valid checkpoint is intact, names the board it was made for and has the firmware that its state needs. */
  lemma ValidMeans(c: Checkpoint)
    ensures Valid(c) <==>
      var p := c.payload;
      && c.integrity == Sha256(p) && p.sequence >= 1
      && p.hardware.board != "" && p.hardware.mcu != "" && p.wizardBoard == p.hardware.board
      && (p.state != HardwareSelected && p.state != CompileRequired ==>
            p.artifact.Some? && p.artifact.value.mcu == p.hardware.mcu && p.artifact.value.consistent)
  {
  }

  /** Each state is entered from where its work is done, and each but an unresolved deployment can be given up. */
  lemma EnteredFrom(current: WorkflowState, target: WorkflowState)
    requires current != target
    ensures Legal(current, target) <==>
      match target
      case HardwareSelected => false
      case CompileRequired => current != Deploying
      case ArtifactReady => current == HardwareSelected || current == CompileRequired
      case AwaitingFlash => current == ArtifactReady || current == VerifyingMcu
      case VerifyingMcu => current == ArtifactReady || current == AwaitingFlash
      case McuVerified => current == VerifyingMcu
      case ConfigGenerated => current == McuVerified
      case ReadyToDeploy => current == ConfigGenerated || current == Deploying
      case Deploying => current == ReadyToDeploy
      case Complete => current == Deploying
  {
  }

  function Create(id: nat, board: string, mcu: string, now: int): Result<Checkpoint, WorkflowError> {
    if board == "" || mcu == "" then Failure(MissingEvidence)
    else Success(Sealed(Payload(id, 1, HardwareSelected, Hardware(board, mcu, "", 0), board, None, "", now)))
  }

  datatype Update = Update(wizardBoard: Option<string>, artifact: Option<Artifact>, verifiedSerial: Option<string>,
                           flashRecordedAt: Option<int>, lastError: string, now: int)

  function Updated(p: Payload, target: WorkflowState, u: Update): Payload {
    var serial := if u.verifiedSerial.Some? then u.verifiedSerial.value else p.hardware.verifiedSerial;
    var flash := if u.flashRecordedAt.Some? then u.flashRecordedAt.value else p.hardware.flashRecordedAt;
    Payload(p.id, p.sequence + 1, target, p.hardware.(verifiedSerial := serial, flashRecordedAt := flash),
            if u.wizardBoard.Some? then u.wizardBoard.value else p.wizardBoard,
            if u.artifact.Some? then u.artifact else p.artifact, u.lastError, u.now)
  }

  function Transition(c: Checkpoint, target: WorkflowState, u: Update): Result<Checkpoint, WorkflowError> {
    var checked :- Validate(c);
    if !Legal(c.payload.state, target) then Failure(IllegalTransition)
    else
      var updated := Updated(c.payload, target, u);
      if target == McuVerified && (updated.hardware.verifiedSerial == "" || updated.hardware.flashRecordedAt <= 0) then
        Failure(MissingEvidence)
      else Success(Sealed(updated))
  }

  /** A transition changes what it is given and counts up; the rest of the checkpoint stays. */
  lemma TransitionKeeps(c: Checkpoint, target: WorkflowState, u: Update)
    requires Transition(c, target, u).Success?
    ensures var p, now := c.payload, Transition(c, target, u).value.payload;
      && Valid(c) && Legal(p.state, target) && now.state == target && now.sequence == p.sequence + 1 && now.id == p.id
      && now.hardware.board == p.hardware.board && now.hardware.mcu == p.hardware.mcu
      && now.lastError == u.lastError && now.updatedAt == u.now
      && (u.artifact.None? ==> now.artifact == p.artifact) && (u.artifact.Some? ==> now.artifact == u.artifact)
      && (u.verifiedSerial.None? ==> now.hardware.verifiedSerial == p.hardware.verifiedSerial)
      && (u.flashRecordedAt.None? ==> now.hardware.flashRecordedAt == p.hardware.flashRecordedAt)
      && (target == McuVerified ==> now.hardware.verifiedSerial != "" && now.hardware.flashRecordedAt > 0)
  {
  }

  /**
    The transition alone does not ask for new evidence: after a recompilation the evidence of the
    previous firmware still opens the door.  That each cycle records its own is a property of the
    driver, not of the transition table.
   */
  lemma StaleEvidenceIsAccepted(board: string, mcu: string, serial: string)
    requires board != "" && mcu != "" && serial != ""
    ensures var verified := Sealed(Payload(0, 9, McuVerified, Hardware(board, mcu, serial, 5), board,
                                           Some(Artifact(mcu, true)), "", 0));
      var quiet := Update(None, None, None, None, "", 0);
      var recompiled := Transition(verified, CompileRequired, quiet);
      var built := Transition(recompiled.value, ArtifactReady, quiet.(artifact := Some(Artifact(mcu, true))));
      var verifying := Transition(built.value, VerifyingMcu, quiet);
      && Valid(verified) && recompiled.Success? && built.Success? && verifying.Success?
      && Transition(verifying.value, McuVerified, quiet).Success?
  {
  }

  // ----- the copy on disk -----

  type Revision = Option<Checkpoint>

  function WriteEffect(disk: Revision, c: Checkpoint, expected: Revision): Result<Revision, WorkflowError> {
    var checked :- Validate(c);
    if disk != expected then Failure(ConflictOnDisk) else Success(Some(c))
  }

  function DiscardEffect(disk: Revision, expected: Revision): Result<Revision, WorkflowError> {
    if expected.None? || disk != expected then Failure(ConflictOnDisk) else Success(None)
  }

  class CheckpointFile {
    var disk: Revision
    var archived: seq<Checkpoint>

    constructor ()
      ensures disk.None? && archived == []
    {
      disk, archived := None, [];
    }

    /** Replaces the checkpoint only while it still is the revision the caller read. */
    method Write(c: Checkpoint, expected: Revision) returns (r: Result<Revision, WorkflowError>)
      modifies this`disk
      ensures match WriteEffect(old(disk), c, expected)
        case Success(now) => r == Success(now) && disk == now
        case Failure(e) => r == Failure(e) && disk == old(disk)
    {
      var checked := Validate(c);
      if checked.Failure? {
        return Failure(checked.error);
      }
      if disk != expected {
        return Failure(ConflictOnDisk);
      }
      disk := Some(c);
      r := Success(disk);
    }

    /** Archives only the revision that the operator chose to discard. */
    method Discard(expected: Revision) returns (r: Result<Revision, WorkflowError>)
      modifies this
      ensures match DiscardEffect(old(disk), expected)
        case Success(now) => r == Success(now) && disk == now && archived == old(archived) + [expected.value]
        case Failure(e) => r == Failure(e) && disk == old(disk) && archived == old(archived)
    {
      if expected.None? || disk != expected {
        return Failure(ConflictOnDisk);
      }
      archived := archived + [disk.value];
      disk := None;
      r := Success(None);
    }

    method Load() returns (r: Result<Revision, WorkflowError>)
      ensures disk.None? ==> r == Success(None)
      ensures disk.Some? ==> r == if Valid(disk.value) then Success(disk) else Failure(Validate(disk.value).error)
    {
      if disk.None? {
        return Success(None);
      }
      var checked := Validate(disk.value);
      r := if checked.Failure? then Failure(checked.error) else Success(disk);
    }
  }

  // ----- any interleaving of processes -----

  type Process = nat

  /** What one process holds: a checkpoint, the revision its next write expects, and how it came by it. */
  datatype Held = Held(checkpoint: Checkpoint, base: Revision, stored: bool, dirty: bool)

  datatype World = World(disk: Revision, history: seq<Checkpoint>, held: map<Process, Held>, nextId: nat)

  datatype Action =
    | Load(p: Process)
    | CreateNew(p: Process, board: string, mcu: string, now: int, initial: Revision)
    | Advance(p: Process, target: WorkflowState, update: Update)
    | WriteBack(p: Process)
    | DiscardHeld(p: Process)
    | Crash(p: Process)

  const START := World(None, [], map[], 0)

  /** The effect of an action; one that the driver or the store refuses changes nothing. */
  function Step(w: World, a: Action): World {
    match a
    case Load(p) =>
      if w.disk.Some? && Valid(w.disk.value) then w.(held := w.held[p := Held(w.disk.value, w.disk, true, false)]) else w
    case CreateNew(p, board, mcu, now, initial) =>
      var created := Create(w.nextId, board, mcu, now);
      // the expected revision was captured when the process started
      if created.Success? && (initial.None? || initial.value in w.history) then
        w.(held := w.held[p := Held(created.value, initial, false, true)], nextId := w.nextId + 1)
      else w
    case Advance(p, target, update) =>
      if p !in w.held then w
      else
        var moved := Transition(w.held[p].checkpoint, target, update);
        if moved.Failure? then w
        else w.(held := w.held[p := w.held[p].(checkpoint := moved.value, dirty := true)])
    case WriteBack(p) =>
      if p !in w.held || !w.held[p].dirty then w
      else
        var h := w.held[p];
        var written := WriteEffect(w.disk, h.checkpoint, h.base);
        if written.Failure? then w
        else w.(disk := written.value, history := w.history + [h.checkpoint],
                held := w.held[p := Held(h.checkpoint, written.value, true, false)])
    case DiscardHeld(p) =>
      if p !in w.held || !w.held[p].stored then w
      else
        var gone := DiscardEffect(w.disk, w.held[p].base);
        if gone.Failure? then w else w.(disk := gone.value)
    case Crash(p) => w.(held := w.held - {p})
  }

  function Run(w: World, actions: seq<Action>): World {
    if actions == [] then w else Step(Run(w, actions[..|actions| - 1]), actions[|actions| - 1])
  }

  ghost predicate LinearHistory(history: seq<Checkpoint>) {
    forall i, j :: 0 <= i < j < |history| && history[i].payload.id == history[j].payload.id ==>
      history[i].payload.sequence < history[j].payload.sequence
  }

  ghost predicate HeldOk(history: seq<Checkpoint>, nextId: nat, h: Held) {
    if h.stored then
      && h.base.Some? && h.base.value in history
      && h.checkpoint.payload.id == h.base.value.payload.id
      && (if h.dirty then h.checkpoint.payload.sequence > h.base.value.payload.sequence else h.checkpoint == h.base.value)
    else
      && h.dirty && h.checkpoint.payload.id < nextId
      && (forall c :: c in history ==> c.payload.id != h.checkpoint.payload.id)
      && (h.base.Some? ==> h.base.value in history)
  }

  ghost predicate DiskOk(disk: Revision, history: seq<Checkpoint>) {
    disk.Some? ==> Valid(disk.value) && history != [] && history[|history| - 1] == disk.value
  }

  ghost predicate HistoryOk(history: seq<Checkpoint>, nextId: nat) {
    && (forall c :: c in history ==> Valid(c) && c.payload.id < nextId)
    && LinearHistory(history)
  }

  /** Two workflows that were created and not yet written never share an identifier. */
  ghost predicate FreshApart(held: map<Process, Held>) {
    forall p, q :: p in held && q in held && p != q && !held[p].stored && !held[q].stored ==>
      held[p].checkpoint.payload.id != held[q].checkpoint.payload.id
  }

  /** What every reachable world satisfies. */
  ghost predicate Inv(w: World) {
    && DiskOk(w.disk, w.history)
    && HistoryOk(w.history, w.nextId)
    && (forall p :: p in w.held ==> HeldOk(w.history, w.nextId, w.held[p]))
    && FreshApart(w.held)
  }

  lemma TransitionShape(c: Checkpoint, target: WorkflowState, u: Update)
    requires Transition(c, target, u).Success?
    ensures Transition(c, target, u).value.payload.id == c.payload.id
    ensures Transition(c, target, u).value.payload.sequence == c.payload.sequence + 1
  {
  }

  /** The written version is newer than every version of its workflow. */
  lemma HistoryGrows(history: seq<Checkpoint>, nextId: nat, h: Held, disk: Revision)
    requires HistoryOk(history, nextId) && DiskOk(disk, history) && HeldOk(history, nextId, h)
    requires h.dirty && h.base == disk && Valid(h.checkpoint)
    ensures HistoryOk(history + [h.checkpoint], nextId)
  {
    hide Valid;
    var c := h.checkpoint;
    forall i | 0 <= i < |history| && history[i].payload.id == c.payload.id
      ensures history[i].payload.sequence < c.payload.sequence
    {
      assert history[i] in history;
    }
  }

  lemma HeldStays(history: seq<Checkpoint>, nextId: nat, h: Held, c: Checkpoint)
    requires HeldOk(history, nextId, h)
    requires !h.stored ==> h.checkpoint.payload.id != c.payload.id
    ensures HeldOk(history + [c], nextId, h)
  {
  }

  lemma WriteKeepsInv(w: World, p: Process)
    requires Inv(w) && Step(w, WriteBack(p)) != w
    ensures Inv(Step(w, WriteBack(p)))
  {
    hide Validate, HeldOk, HistoryOk, LinearHistory;
    var h := w.held[p];
    var next := Step(w, WriteBack(p));
    HistoryGrows(w.history, w.nextId, h, w.disk);
    forall q | q in next.held ensures HeldOk(next.history, next.nextId, next.held[q]) {
      if q == p {
        WrittenOk(w.history, w.nextId, h.checkpoint);
      } else {
        if !w.held[q].stored {
          FreshAfterWrite(w, p, q);
        }
        HeldStays(w.history, w.nextId, w.held[q], h.checkpoint);
      }
    }
  }

  lemma WrittenOk(history: seq<Checkpoint>, nextId: nat, c: Checkpoint)
    ensures HeldOk(history + [c], nextId, Held(c, Some(c), true, false))
  {
    assert (history + [c])[|history|] == c;
  }

  /** What a process has created and not yet written is of no written workflow. */
  lemma FreshAfterWrite(w: World, p: Process, q: Process)
    requires Inv(w) && p in w.held && q in w.held && p != q && !w.held[q].stored
    ensures w.held[q].checkpoint.payload.id != w.held[p].checkpoint.payload.id
  {
    hide Validate;
    assert HeldOk(w.history, w.nextId, w.held[q]) && HeldOk(w.history, w.nextId, w.held[p]);
  }

  lemma StepKeepsInv(w: World, a: Action)
    requires Inv(w)
    ensures Inv(Step(w, a))
    ensures Step(w, a).history == w.history
      || (Step(w, a).disk.Some? && Step(w, a).history == w.history + [Step(w, a).disk.value])
    ensures Step(w, a).history == w.history ==> Step(w, a).disk == w.disk || Step(w, a).disk.None?
  {
    hide Validate, Transition, HistoryOk, LinearHistory, Create;
    var next := Step(w, a);
    match a
    case WriteBack(p) =>
      if next != w {
        WriteKeepsInv(w, p);
      }
    case Load(p) =>
      if next != w {
        LoadKeepsInv(w, p);
      }
    case CreateNew(p, board, mcu, now, initial) =>
      if next != w {
        CreateKeepsInv(w, p, board, mcu, now, initial);
      }
    case Advance(p, target, update) =>
      if next != w {
        AdvanceKeepsInv(w, p, target, update);
      }
    case DiscardHeld(p) =>
    case Crash(p) =>
  }

  lemma LoadKeepsInv(w: World, p: Process)
    requires Inv(w)
    ensures Inv(Step(w, Load(p)))
  {
    hide Validate, Transition, HistoryOk, LinearHistory, Create;
    assert w.disk.Some? ==> w.disk.value in w.history;
  }

  lemma AdvanceKeepsInv(w: World, p: Process, target: WorkflowState, update: Update)
    requires Inv(w) && p in w.held && Transition(w.held[p].checkpoint, target, update).Success?
    ensures Inv(Step(w, Advance(p, target, update)))
  {
    hide Validate, Transition, HistoryOk, LinearHistory;
    assert HeldOk(w.history, w.nextId, w.held[p]);
    TransitionShape(w.held[p].checkpoint, target, update);
  }

  lemma CreateKeepsInv(w: World, p: Process, board: string, mcu: string, now: int, initial: Revision)
    requires Inv(w) && Create(w.nextId, board, mcu, now).Success? && (initial.None? || initial.value in w.history)
    ensures Inv(Step(w, CreateNew(p, board, mcu, now, initial)))
  {
    hide Validate, LinearHistory;
    var next := Step(w, CreateNew(p, board, mcu, now, initial));
    forall q | q in next.held ensures HeldOk(next.history, next.nextId, next.held[q]) {
      if q != p {
        assert HeldOk(w.history, w.nextId, w.held[q]);
      }
    }
    forall q | q in w.held && !w.held[q].stored ensures w.held[q].checkpoint.payload.id < w.nextId {
      assert HeldOk(w.history, w.nextId, w.held[q]);
    }
  }

  /** Over any run: the file always validates, and the versions of one workflow only move forward. */
  lemma {:induction false} RunsAreLinear(actions: seq<Action>)
    ensures Inv(Run(START, actions))
    decreases |actions|
  {
    if actions != [] {
      RunsAreLinear(actions[..|actions| - 1]);
      StepKeepsInv(Run(START, actions[..|actions| - 1]), actions[|actions| - 1]);
    }
  }

  lemma {:induction false} RunAppend(w: World, a: seq<Action>, b: seq<Action>)
    ensures Run(w, a + b) == Run(Run(w, a), b)
    decreases |b|
  {
    if b == [] {
      assert a + b == a;
    } else {
      var init := b[..|b| - 1];
      assert (a + b)[..|a + b| - 1] == a + init;
      RunAppend(w, a, init);
    }
  }

  /** A revision that was replaced or discarded. */
  ghost predicate Superseded(w: World, r: Checkpoint) {
    r in w.history && w.disk != Some(r)
  }

  /** No ABA: once superseded, a revision is never on disk again, whatever happens next. */
  lemma {:induction false} NoRevisionRecurs(w: World, actions: seq<Action>, r: Checkpoint)
    requires Inv(w) && Superseded(w, r)
    ensures Inv(Run(w, actions)) && Superseded(Run(w, actions), r)
    decreases |actions|
  {
    if actions != [] {
      var before, a := Run(w, actions[..|actions| - 1]), actions[|actions| - 1];
      NoRevisionRecurs(w, actions[..|actions| - 1], r);
      StepKeepsInv(before, a);
      StaysSuperseded(before, Step(before, a), r);
    }
  }

  lemma StaysSuperseded(before: World, after: World, r: Checkpoint)
    requires Inv(before) && Inv(after) && Superseded(before, r)
    requires after.history == before.history
      || (after.disk.Some? && after.history == before.history + [after.disk.value])
    requires after.history == before.history ==> after.disk == before.disk || after.disk.None?
    ensures Superseded(after, r)
  {
    hide Valid, HeldOk, FreshApart;
    var k :| 0 <= k < |before.history| && before.history[k] == r;
    assert after.history[k] == r;
    if after.history != before.history {
      assert after.history[|before.history|] == after.disk.value;
    }
  }

  /** The action is carried out, on the strength of holding revision `r`. */
  ghost predicate SucceedsOn(w: World, a: Action, r: Checkpoint) {
    && (a.WriteBack? || a.DiscardHeld?)
    && a.p in w.held && w.held[a.p].base == Some(r)
    && (a.WriteBack? ==> w.held[a.p].dirty && WriteEffect(w.disk, w.held[a.p].checkpoint, Some(r)).Success?)
    && (a.DiscardHeld? ==> w.held[a.p].stored && DiscardEffect(w.disk, Some(r)).Success?)
  }

  /**
    Two holders of one revision cannot both succeed: after a write or a discard based on `r`, no
    later write or discard based on `r` is carried out, in any interleaving.
   */
  lemma OneHolderSucceeds(actions: seq<Action>, first: Action, between: seq<Action>, second: Action, r: Checkpoint)
    requires SucceedsOn(Run(START, actions), first, r)
    ensures !SucceedsOn(Run(START, actions + [first] + between), second, r)
  {
    hide Validate, HistoryOk, HeldOk, FreshApart, DiskOk;
    var w := Run(START, actions);
    RunsAreLinear(actions);
    assert w.disk.Some? ==> w.disk.value in w.history by { DiskInHistory(w.disk, w.history); }
    var after := Step(w, first);
    StepKeepsInv(w, first);
    assert w.disk == Some(r) && r in w.history;
    if first.WriteBack? {
      WriteSupersedes(w, first.p, r);
    }
    assert Superseded(after, r);
    RunAppend(START, actions, [first]);
    RunAppend(START, actions + [first], between);
    assert Run(w, [first]) == Step(Run(w, []), first);
    NoRevisionRecurs(after, between, r);
  }

  lemma DiskInHistory(disk: Revision, history: seq<Checkpoint>)
    requires DiskOk(disk, history)
    ensures disk.Some? ==> disk.value in history
  {
  }

  lemma WriteSupersedes(w: World, p: Process, r: Checkpoint)
    requires Inv(w) && SucceedsOn(w, WriteBack(p), r)
    ensures Superseded(Step(w, WriteBack(p)), r)
  {
    hide Validate, LinearHistory;
    var h := w.held[p];
    assert HeldOk(w.history, w.nextId, h);
    assert w.history[|w.history| - 1] == r;
    assert (w.history + [h.checkpoint])[|w.history| - 1] == r;
    assert r in w.history;
    assert h.checkpoint != r;
  }
}

/**
  One firmware and configuration installation, from the physical power cycle to DONE.

  Every call to the printer, the monitor, a prompt or a callback may raise; which answers and
  samples they give is arbitrary.  The ghost `trace` lists what was done and seen, in order.
 */
module FirmwareDeployer {
  import opened Prelude
  import opened Transport

  datatype State =
    | Init | Backup | MonitorArmed | AwaitingBootloader | Flashing | CopyingFirmware | MediaPrepared
    | AwaitingPowerCycle | AwaitingMediaInstallation | AwaitingDisconnect | McuAbsent | AwaitingReenumeration
    | AwaitingMcuConfirmation | McuIdentityConfirmed | McuPresent | WaitingMoonraker | MoonrakerOnline
    | WaitingKlipperReady | KlipperReady | WaitingMcuRegistration | McuRegistered | VerifyingFirmware
    | FirmwareVerified | ApplyingConfig | VerifyingUpload | FirmwareRestarting | VerifyingConfig
    | RollingBack | VerifyingRollback
    | Done | FailedFlash | Timeout | ConfigError | Cancelled | FailedUpload | FailedMonitor | FailedPrecondition

  predicate Terminal(s: State) {
    s in {Done, FailedFlash, Timeout, ConfigError, Cancelled, FailedUpload, FailedMonitor, FailedPrecondition}
  }

  /** The states from which an unexpected failure is answered by a rollback. */
  predicate RollsBack(s: State) {
    s in {ApplyingConfig, VerifyingUpload, FirmwareRestarting, VerifyingConfig} || Terminal(s)
  }

  /** The states in which an unexpected failure after a write is not answered by a (further) rollback. */
  predicate Exposed(s: State) {
    s in {WaitingMoonraker, RollingBack, VerifyingRollback}
  }

  /** The states between the first upload and the end of the run. */
  predicate CanRollBack(s: State) {
    s in {ApplyingConfig, VerifyingUpload, WaitingMoonraker, FirmwareRestarting, VerifyingConfig, RollingBack, VerifyingRollback}
  }

  /**
    What a call may raise: an interrupt from the keyboard, the cancellation that a wait notices, another
    error of the monitor, a timeout, or anything else.  Only the first is no ordinary exception.
   */
  datatype Fault = Interrupted | CancelRequested | MonitorFault | TimedOut | OtherFault

  datatype Prompt = PowerCyclePrompt | MediaPrompt | IdentityPrompt

  datatype Action = NoAction | CopyMedia | Deploy
  datatype Outcome = OutcomeCancelled | ActionRequired | Failed | Prepared | Flashed | Unknown

  type Versions = map<string, string>

  datatype Item =
    | Emitted(number: nat, state: State)
    | Vetted                          // every planned file can be written on the condition of its backup
    | Armed                           // the monitor watches the board
    | Acted(outcome: Outcome)         // the firmware action answered
    | Answered(prompt: Prompt, yes: bool)
    | PowerOff
    | PowerOn
    | Absent                          // the board was seen to go away
    | Present                         // and an accepted identity to come back
    | Waited(up: bool)                // a bounded wait ended
    | FirmwareSeen(reported: Versions)
    | Checked                         // the last check before the first upload passed
    | Found(name: Name, same: bool)      // the file to replace, compared with its backup
    | Wrote(name: Name)               // a configuration upload was attempted
    | UploadsSeen(seen: Store)        // the planned files as downloaded
    | MoonrakerRestarted
    | Restarted                       // Klipper was restarted
    | ReadBack(current: Contents)     // the written files as read in a rollback
    | Restored(name: Name, done: bool)   // the restoration of a file from the snapshot was attempted
    | Fell(fault: Fault)              // the body raised

  type Log = seq<Item>

  datatype Snapshot = Snapshot(files: Store, missing: set<Name>)

  /** What the caller installed: callbacks that are absent are `false`. */
  datatype Setup = Setup(verifyFirmware: bool, targets: Versions, matches: (string, string) -> bool,
                         planned: Store, loader: bool, supportsCas: Option<Bytes> -> bool,
                         monitor: bool, monitorFirst: bool, action: Action, alreadyCopied: bool,
                         powerOff: bool, powerOn: bool, cyclePrompt: bool, mediaPrompt: bool)
  {
    predicate FirmwareOk(reported: Versions) {
      forall t :: t in targets ==> t in reported && matches(reported[t], targets[t])
    }

    predicate UploadsOk(seen: Store) {
      forall n :: n in planned ==> n in seen && seen[n] == planned[n]
    }

    /** The state in which the first action is taken. */
    function Start(): State {
      if loader then Backup else Init
    }

    /** An automatic flash is told before it starts, and a copy while it runs. */
    function Base(): State {
      if monitorFirst && monitor then Flashing else Start()
    }

    function Acting(): State {
      if action != NoAction && !monitorFirst then CopyingFirmware else Base()
    }

    function AfterFirmware(prepared: bool): State {
      if prepared then MediaPrepared else if action != NoAction && !monitorFirst then Flashing else Base()
    }

    /** The firmware is ready and the board is watched. */
    function Watched(prepared: bool): State {
      if monitorFirst then AfterFirmware(prepared) else MonitorArmed
    }

    /** The state in which a prompt is posed. */
    function Asking(prompt: Prompt): State {
      match prompt
      case PowerCyclePrompt => if powerOff then AwaitingPowerCycle else AwaitingMediaInstallation
      case MediaPrompt => AwaitingMediaInstallation
      case IdentityPrompt => AwaitingMcuConfirmation
    }

    predicate Offers(prompt: Prompt) {
      match prompt
      case PowerCyclePrompt => cyclePrompt
      case MediaPrompt => mediaPrompt
      case IdentityPrompt => true
    }

    function ManualPrompt(): Prompt {
      if mediaPrompt then MediaPrompt else PowerCyclePrompt
    }
  }

  function Original(s: Snapshot, name: Name): Option<Bytes> {
    Lookup(s.files, name)
  }

  predicate Known(s: Snapshot, name: Name) {
    name in s.files || name in s.missing
  }

  // ----- the safety of a trace -----

  function Emissions(t: Log): nat {
    if t == [] then 0 else Emissions(t[..|t| - 1]) + if t[|t| - 1].Emitted? then 1 else 0
  }

  /** The state the last event told. */
  function LastState(t: Log): State {
    if t == [] then Init else if t[|t| - 1].Emitted? then t[|t| - 1].state else LastState(t[..|t| - 1])
  }

  ghost predicate Told(t: Log, s: State) {
    exists i :: 0 <= i < |t| && Tells(t[i], s)
  }

  ghost predicate Ended(t: Log) {
    exists i :: 0 <= i < |t| && t[i].Emitted? && Terminal(t[i].state)
  }

  ghost predicate At(t: Log, i: int, item: Item) {
    0 <= i < |t| && t[i] == item
  }

  ghost predicate Happened(t: Log, item: Item) {
    exists i :: At(t, i, item)
  }

  ghost predicate Last(t: Log, item: Item) {
    At(t, |t| - 1, item)
  }

  /** Removal was confirmed, done and observed, and the media confirmed while the printer was off. */
  ghost predicate RelayCycle(t: Log) {
    exists c, o, a, m :: c < o < a < m && At(t, c, Answered(PowerCyclePrompt, true)) && At(t, o, PowerOff)
                         && At(t, a, Absent) && At(t, m, Answered(MediaPrompt, true))
  }

  ghost predicate ManualCycle(setup: Setup, t: Log) {
    exists m, a :: m < a && At(t, a, Absent) && At(t, m, Answered(setup.ManualPrompt(), true))
  }

  ghost predicate Cycled(setup: Setup, t: Log) {
    if setup.powerOff then RelayCycle(t) else ManualCycle(setup, t)
  }

  /** Every write can be conditioned, and the firmware action, if there is one, left a medium or a flashed board. */
  ghost predicate Installed(setup: Setup, t: Log) {
    && Happened(t, Vetted)
    && (setup.action == NoAction || Happened(t, Acted(Prepared)) || Happened(t, Acted(Flashed)))
  }

  ghost predicate LastFirmwareOk(setup: Setup, t: Log) {
    t != [] && t[|t| - 1].FirmwareSeen? && setup.FirmwareOk(t[|t| - 1].reported)
  }

  ghost predicate LastUploadsOk(setup: Setup, t: Log) {
    t != [] && t[|t| - 1].UploadsSeen? && setup.UploadsOk(t[|t| - 1].seen)
  }

  // what an answer obliges to

  function AnswerTo(outcome: Outcome): State
    requires outcome !in {Prepared, Flashed}
  {
    match outcome
    case Failed => FailedFlash
    case OutcomeCancelled => Cancelled
    case _ => FailedPrecondition
  }

  /** Nothing is owed after this item. */
  predicate Calm(setup: Setup, item: Item) {
    match item
    case Acted(outcome) => outcome in {Prepared, Flashed}
    case Answered(prompt, yes) => yes || prompt == IdentityPrompt
    case Waited(up) => up
    case FirmwareSeen(reported) => setup.FirmwareOk(reported)
    case UploadsSeen(seen) => setup.UploadsOk(seen)
    case Found(_, same) => same
    case Fell(_) => false
    case _ => true
  }

  predicate Tells(item: Item, s: State) {
    item.Emitted? && item.state == s
  }

  /** A rollback begins, or the run ends in `s` as there is nothing to compare with. */
  predicate RollsBackOr(item: Item, s: State) {
    Tells(item, RollingBack) || Tells(item, s)
  }

  /** The very next item after one that owes something. */
  ghost predicate Answers(setup: Setup, before: Log, last: Item, item: Item)
    requires !Calm(setup, last)
  {
    match last
    case Acted(outcome) => Tells(item, AnswerTo(outcome))
    case Answered(_, _) => Tells(item, Cancelled)
    case Waited(_) =>
      match LastState(before) {
        case VerifyingRollback => item.Emitted? && item.state in {FailedFlash, FailedUpload, ConfigError}
        case VerifyingConfig => RollsBackOr(item, ConfigError)
        case WaitingMoonraker => if Writes(before) then RollsBackOr(item, ConfigError) else Tells(item, Timeout)
        case _ => Tells(item, Timeout)
      }
    case FirmwareSeen(_) =>
      if LastState(before) == VerifyingFirmware then Tells(item, FailedFlash) else RollsBackOr(item, FailedFlash)
    case UploadsSeen(_) => RollsBackOr(item, FailedUpload)
    case Found(_, _) => item == Fell(OtherFault)
    case Fell(fault) =>
      match fault {
        case MonitorFault => Tells(item, FailedMonitor)
        case TimedOut => Tells(item, Timeout)
        case OtherFault => if RollsBack(LastState(before)) then RollsBackOr(item, ConfigError) else Tells(item, FailedPrecondition)
        case _ => if Writes(before) then RollsBackOr(item, ConfigError)
                  else item.Emitted? && item.state in {Cancelled, RollingBack, ConfigError}
      }
  }

  ghost predicate Settled(setup: Setup, t: Log) {
    t == [] || Calm(setup, t[|t| - 1])
  }

  ghost predicate Due(setup: Setup, before: Log, item: Item) {
    Settled(setup, before) || Answers(setup, before, before[|before| - 1], item)
  }

  // the order of the states

  predicate Causes(setup: Setup, item: Item, s: State) {
    match s
    case FailedFlash => item == Acted(Failed) || (item.FirmwareSeen? && !setup.FirmwareOk(item.reported))
    case Timeout => item in {Waited(false), Fell(TimedOut)}
    case ConfigError => item == Waited(false) || item.Fell?
    case Cancelled => item in {Acted(OutcomeCancelled), Fell(Interrupted), Fell(CancelRequested)} || (item.Answered? && !item.yes)
    case FailedUpload => item.UploadsSeen? && !setup.UploadsOk(item.seen)
    case FailedMonitor => item == Fell(MonitorFault)
    case _ => false
  }

  /** A failure is told for a reason. */
  ghost predicate Caused(setup: Setup, t: Log, s: State) {
    s == FailedPrecondition || exists i :: 0 <= i < |t| && Causes(setup, t[i], s)
  }

  /** The uploads are verified, and a written moonraker.conf is in force. */
  ghost predicate InForce(setup: Setup, t: Log, prev: State) {
    if MoonrakerConf in setup.planned then prev == WaitingMoonraker && Last(t, Waited(true))
    else prev == VerifyingUpload && LastUploadsOk(setup, t)
  }

  /** `s` may be told after `t`, whose last state was `prev` and in which a medium was `prepared` or not. */
  ghost predicate Follows(setup: Setup, t: Log, prev: State, prepared: bool, s: State) {
    match s
    case Init => false
    case Backup => prev == Init && setup.loader
    case MonitorArmed =>
      setup.monitor && Last(t, Armed) && prev == if setup.monitorFirst then setup.Start() else setup.AfterFirmware(prepared)
    case CopyingFirmware => !prepared && setup.action != NoAction && !setup.monitorFirst && prev == setup.Base()
    case MediaPrepared =>
      !prepared && prev == setup.Acting() && if setup.action == NoAction then setup.alreadyCopied else Last(t, Acted(Prepared))
    case AwaitingBootloader =>
      if prepared then prev == (if setup.powerOff then AwaitingMediaInstallation else McuAbsent) && Cycled(setup, t)
      else setup.monitorFirst && prev == MonitorArmed
    case Flashing =>
      if prev == AwaitingBootloader then prepared && setup.powerOn ==> Last(t, PowerOn)
      else !prepared && !setup.monitorFirst && prev == CopyingFirmware && Last(t, Acted(Flashed))
    case AwaitingPowerCycle =>
      && prepared && setup.monitor
      && if setup.powerOff then prev == setup.Watched(true)
         else prev == AwaitingMediaInstallation && Last(t, Answered(setup.ManualPrompt(), true))
    case AwaitingMediaInstallation =>
      prepared && setup.monitor && prev == if setup.powerOff then McuAbsent else setup.Watched(true)
    case AwaitingDisconnect =>
      && setup.monitor && Installed(setup, t)
      && if prepared then prev == AwaitingPowerCycle && (setup.powerOff ==> Last(t, PowerOff))
         else prev == setup.Watched(false)
    case McuAbsent => prev == AwaitingDisconnect && Last(t, Absent)
    case AwaitingReenumeration => prev == if prepared then Flashing else McuAbsent
    case AwaitingMcuConfirmation => prev == AwaitingReenumeration
    case McuIdentityConfirmed => prev == AwaitingMcuConfirmation && Last(t, Answered(IdentityPrompt, true))
    case McuPresent => prev in {AwaitingReenumeration, AwaitingMcuConfirmation, McuIdentityConfirmed} && Last(t, Present)
    case WaitingMoonraker =>
      if prev == VerifyingUpload then MoonrakerConf in setup.planned && Last(t, MoonrakerRestarted)
      else if setup.monitor then prev == McuPresent
      else !prepared && prev == setup.AfterFirmware(false) && Installed(setup, t)
    case MoonrakerOnline => prev == WaitingMoonraker && Last(t, Waited(true)) && !Writes(t)
    case WaitingKlipperReady => prev == MoonrakerOnline
    case KlipperReady => prev == WaitingKlipperReady && Last(t, Waited(true))
    case WaitingMcuRegistration => prev == KlipperReady
    case McuRegistered => prev == WaitingMcuRegistration && Last(t, Waited(true))
    case VerifyingFirmware => prev == McuRegistered
    case FirmwareVerified => prev == VerifyingFirmware && (setup.verifyFirmware ==> LastFirmwareOk(setup, t))
    case ApplyingConfig => prev == State.FirmwareVerified
    case VerifyingUpload => prev == ApplyingConfig && setup.planned.Keys <= WrittenNames(t) && Happened(t, Checked)
    case FirmwareRestarting => setup.planned != map[] && InForce(setup, t, prev)
    case VerifyingConfig =>
      if setup.planned != map[] then prev == FirmwareRestarting && Last(t, Restarted) else InForce(setup, t, prev)
    case RollingBack => CanRollBack(prev)
    case VerifyingRollback => prev == RollingBack && t != [] && t[|t| - 1].ReadBack?
    case Done => prev == VerifyingConfig && LastUploadsOk(setup, t)
    case _ => Caused(setup, t, s)
  }

  /** What must have happened before an item. */
  ghost predicate Earned(setup: Setup, before: Log, item: Item) {
    && Due(setup, before, item)
    && match item {
      case Emitted(n, s) =>
        && n == Emissions(before) + 1 && !Ended(before)
        && Follows(setup, before, LastState(before), Told(before, MediaPrepared), s)
      case Restored(_, _) => false         // that is for the operator to ask for
      case _ => Fits(setup, before, LastState(before), Told(before, MediaPrepared), item)
    }
  }

  /** What is done and seen in which state. */
  ghost predicate Fits(setup: Setup, before: Log, now: State, prepared: bool, item: Item) {
    match item
    case Vetted => now == setup.Start()
    case Armed => Happened(before, Vetted) && now == if setup.monitorFirst then setup.Start() else setup.AfterFirmware(prepared)
    case Acted(_) => Happened(before, Vetted) && setup.action != NoAction && now == setup.Acting()
    case Answered(prompt, _) => setup.Offers(prompt) && now == setup.Asking(prompt)
    case PowerOff => prepared && setup.powerOff && now == AwaitingPowerCycle && Last(before, Answered(PowerCyclePrompt, true))
    case PowerOn => prepared && setup.powerOn && now == AwaitingBootloader && Cycled(setup, before)
    case Absent => now == AwaitingDisconnect
    case Present => now in {AwaitingReenumeration, AwaitingMcuConfirmation, McuIdentityConfirmed}
    case Waited(_) => now in {WaitingMoonraker, WaitingKlipperReady, WaitingMcuRegistration, VerifyingConfig, VerifyingRollback}
    case FirmwareSeen(_) => now in {VerifyingFirmware, VerifyingConfig}
    case Checked => now == ApplyingConfig && !Writes(before)
    case Found(_, _) => now == ApplyingConfig && Happened(before, Checked)
    case Wrote(n) =>
      && now == ApplyingConfig && n in setup.planned && Last(before, Found(n, true))
      && (n == Root ==> setup.planned.Keys - {Root} <= WrittenNames(before))
    case UploadsSeen(_) => now in {VerifyingUpload, VerifyingConfig}
    case MoonrakerRestarted =>
      if now == VerifyingRollback then before != [] && before[|before| - 1].ReadBack?
      else now == VerifyingUpload && LastUploadsOk(setup, before)
    case Restarted => if now == VerifyingRollback then Last(before, Waited(true)) else now == FirmwareRestarting
    case ReadBack(_) => now in {RollingBack, VerifyingRollback}
    case _ => true
  }

  ghost predicate Safe(setup: Setup, t: Log) {
    forall i :: 0 <= i < |t| ==> Earned(setup, t[..i], t[i])
  }

  ghost predicate Writes(t: Log) {
    exists i :: 0 <= i < |t| && t[i].Wrote?
  }

  /** A file was found as in the backup, so its replacement was begun. */
  ghost predicate Begun(t: Log) {
    exists i :: 0 <= i < |t| && t[i].Found? && t[i].same
  }

  function WrittenNames(t: Log): set<Name> {
    set i | 0 <= i < |t| && t[i].Wrote? :: t[i].name
  }

  lemma SafeSnoc(setup: Setup, t: Log, item: Item)
    requires Safe(setup, t) && Earned(setup, t, item)
    ensures Safe(setup, t + [item])
  {
    hide Earned;
    var more := t + [item];
    forall i | 0 <= i < |more| ensures Earned(setup, more[..i], more[i]) {
      assert more[..i] == t[..i];
      assert t[..|t|] == t;
    }
  }

  // ----- the evidence of each outcome -----

  /** No upload is attempted after `i`. */
  ghost predicate LastWriteBefore(t: Log, i: int) {
    forall k :: 0 <= k < |t| && i <= k ==> !t[k].Wrote?
  }

  ghost predicate RestartedAt(setup: Setup, t: Log, i: int) {
    0 <= i < |t| && (setup.planned != map[] ==> t[i].Restarted?)
  }

  ghost predicate FirmwareAt(setup: Setup, t: Log, i: int) {
    0 <= i < |t| && (setup.verifyFirmware ==> t[i].FirmwareSeen? && setup.FirmwareOk(t[i].reported))
  }

  ghost predicate UploadsAt(setup: Setup, t: Log, i: int) {
    0 <= i < |t| && t[i].UploadsSeen? && setup.UploadsOk(t[i].seen)
  }

  /** Moonraker, then Klipper were waited for, and came up. */
  ghost predicate UpAt(t: Log, i: int) {
    At(t, i, Waited(true)) && At(t, i + 1, Waited(true))
  }

  /**
    DONE: after the last write the uploads were verified, then (when there are any) Klipper was
    restarted and waited for, and only then the firmware and the uploads were verified once more.
   */
  ghost predicate Validated(setup: Setup, t: Log) {
    exists u, r, w, f, v :: ValidatedAt(setup, t, u, r, w, f, v)
  }

  ghost predicate ValidatedAt(setup: Setup, t: Log, u: int, r: int, w: int, f: int, v: int) {
    && u < r < w < f < v
    && UploadsAt(setup, t, u) && LastWriteBefore(t, u) && RestartedAt(setup, t, r) && UpAt(t, w)
    && FirmwareAt(setup, t, f) && UploadsAt(setup, t, v)
  }

  /** From `from` on no file is written, by an upload or by a restoration. */
  ghost predicate NoWriteFrom(t: Log, from: int) {
    forall i :: 0 <= i < |t| && from <= i ==> !t[i].Wrote? && !t[i].Restored?
  }

  /** All the written files were read as they are in the snapshot. */
  ghost predicate Matches(snapshot: Snapshot, names: set<Name>, item: Item) {
    && item.ReadBack?
    && forall n :: n in names ==> Known(snapshot, n) && n in item.current && item.current[n] == Original(snapshot, n)
  }

  /** The bytes as they were, Moonraker and Klipper back, and the bytes once more. */
  ghost predicate Verified(snapshot: Snapshot, names: set<Name>, items: Log) {
    var m := if Known(snapshot, MoonrakerConf) then 1 else 0;
    && |items| == 5 + m
    && Matches(snapshot, names, items[0]) && (m == 1 ==> items[1] == MoonrakerRestarted)
    && items[1 + m] == Waited(true) && items[2 + m] == Restarted && items[3 + m] == Waited(true)
    && Matches(snapshot, names, items[4 + m])
  }

  /** What a rollback that recovered has done: compared, told and compared, brought the printer back, compared. */
  ghost predicate RolledBack(snapshot: Snapshot, names: set<Name>, items: Log) {
    && |items| > 3
    && Tells(items[0], RollingBack) && Matches(snapshot, names, items[1])
    && Tells(items[2], VerifyingRollback) && Verified(snapshot, names, items[3..])
  }

  ghost predicate RolledBackAt(snapshot: Snapshot, t: Log, from: int, to: int) {
    0 <= from <= to <= |t| && NoWriteFrom(t, from) && RolledBack(snapshot, WrittenNames(t), t[from..to])
  }

  /** Nothing was written, or everything that was is back as it was in the snapshot and the printer with it. */
  ghost predicate NothingLeft(snapshot: Option<Snapshot>, t: Log) {
    !Writes(t) || (snapshot.Some? && exists from, to :: RolledBackAt(snapshot.value, t, from, to))
  }

  /** Every upload was planned and could be conditioned on its backup. */
  ghost predicate Publishable(setup: Setup, snapshot: Option<Snapshot>) {
    forall n :: n in setup.planned ==>
      snapshot.Some? && Known(snapshot.value, n) && setup.supportsCas(Original(snapshot.value, n))
  }

  /** How a run ends after a fault that came in the state `now`; `started`: an upload may have begun. */
  predicate EndsAs(fault: Fault, started: bool, now: State, s: State) {
    match fault
    case MonitorFault => s == FailedMonitor
    case TimedOut => s == Timeout
    case OtherFault => s == if RollsBack(now) then ConfigError else FailedPrecondition
    case _ => s == Cancelled || (started && s == ConfigError)
  }

  // ----- appending -----

  lemma HappenedStays(t: Log, more: Log)
    requires t <= more
    ensures forall item :: Happened(t, item) ==> Happened(more, item)
  {
    forall item | Happened(t, item) ensures Happened(more, item) {
      var i :| At(t, i, item);
      assert At(more, i, item);
    }
  }

  lemma CausedStays(setup: Setup, t: Log, more: Log, s: State)
    requires Caused(setup, t, s) && t <= more
    ensures Caused(setup, more, s)
  {
    if s != FailedPrecondition {
      var i :| 0 <= i < |t| && Causes(setup, t[i], s);
      assert more[i] == t[i];
    }
  }

  lemma CycledStays(setup: Setup, t: Log, more: Log)
    requires t <= more && Cycled(setup, t)
    ensures Cycled(setup, more)
  {
    assert forall i, item :: At(t, i, item) ==> At(more, i, item);
    if setup.powerOff {
      var c, o, a, m :| c < o < a < m && At(t, c, Answered(PowerCyclePrompt, true)) && At(t, o, PowerOff)
                        && At(t, a, Absent) && At(t, m, Answered(MediaPrompt, true));
      RelayDone(more, c, o, a, m);
    } else {
      var m, a :| m < a && At(t, a, Absent) && At(t, m, Answered(setup.ManualPrompt(), true));
      ManualDone(setup, more, m, a);
    }
  }

  lemma WrittenSnoc(t: Log, item: Item)
    ensures WrittenNames(t + [item]) == WrittenNames(t) + if item.Wrote? then {item.name} else {}
    ensures Writes(t + [item]) <==> Writes(t) || item.Wrote?
    ensures Ended(t + [item]) <==> Ended(t) || (item.Emitted? && Terminal(item.state))
    ensures Begun(t + [item]) <==> Begun(t) || (item.Found? && item.same)
    ensures Emissions(t + [item]) == Emissions(t) + if item.Emitted? then 1 else 0
    ensures LastState(t + [item]) == if item.Emitted? then item.state else LastState(t)
  {
    var more := t + [item];
    assert more[..|t|] == t && more[|t|] == item;
    assert forall i :: 0 <= i < |t| ==> more[i] == t[i];
    if Writes(t) {
      var i :| 0 <= i < |t| && t[i].Wrote?;
      assert more[i].Wrote?;
    }
    if Ended(t) {
      var i :| 0 <= i < |t| && t[i].Emitted? && Terminal(t[i].state);
      assert more[i].Emitted?;
    }
    if Begun(t) {
      var i :| 0 <= i < |t| && t[i].Found? && t[i].same;
      assert more[i].Found?;
    }
    forall n ensures n in WrittenNames(more) <==> n in WrittenNames(t) || (item.Wrote? && n == item.name) {
      if n in WrittenNames(t) {
        var i :| 0 <= i < |t| && t[i].Wrote? && t[i].name == n;
        assert more[i].Wrote? && more[i].name == n;
      }
    }
  }

  lemma ToldSnoc(t: Log, item: Item, s: State)
    ensures Told(t + [item], s) <==> Told(t, s) || Tells(item, s)
  {
    hide Tells;
    var more := t + [item];
    assert more[|t|] == item;
    if Told(t, s) {
      var i :| 0 <= i < |t| && Tells(t[i], s);
      assert more[i] == t[i];
    }
    assert forall i :: 0 <= i < |t| ==> more[i] == t[i];
  }

  lemma HappenedSnoc(t: Log, item: Item, other: Item)
    ensures Happened(t + [item], other) <==> Happened(t, other) || item == other
  {
    var more := t + [item];
    assert At(more, |t|, item);
    if Happened(t, other) {
      var i :| At(t, i, other);
      assert At(more, i, other);
    }
    if Happened(more, other) && item != other {
      var i :| At(more, i, other);
      assert At(t, i, other);
    }
  }

  lemma RelayDone(t: Log, c: int, o: int, a: int, m: int)
    requires c < o < a < m && At(t, c, Answered(PowerCyclePrompt, true)) && At(t, o, PowerOff)
    requires At(t, a, Absent) && At(t, m, Answered(MediaPrompt, true))
    ensures RelayCycle(t)
  {
  }

  lemma ManualDone(setup: Setup, t: Log, m: int, a: int)
    requires m < a && At(t, a, Absent) && At(t, m, Answered(setup.ManualPrompt(), true))
    ensures ManualCycle(setup, t)
  {
  }

  // ----- small steps of the order -----

  /** The events that nothing but the one before them asks for. */
  lemma Forward(setup: Setup, t: Log, prev: State, prepared: bool, s: State)
    requires || (prev == MoonrakerOnline && s == WaitingKlipperReady) || (prev == KlipperReady && s == WaitingMcuRegistration)
             || (prev == McuRegistered && s == VerifyingFirmware) || (prev == State.FirmwareVerified && s == ApplyingConfig)
    ensures Follows(setup, t, prev, prepared, s)
  {
  }

  /** Where a bounded wait leads to. */
  function Awaited(waiting: State): State {
    match waiting
    case WaitingMoonraker => MoonrakerOnline
    case WaitingKlipperReady => KlipperReady
    case WaitingMcuRegistration => McuRegistered
    case _ => Init
  }

  lemma Reached(setup: Setup, t: Log, prev: State, prepared: bool)
    requires Last(t, Waited(true)) && Awaited(prev) != Init && !Writes(t)
    ensures Follows(setup, t, prev, prepared, Awaited(prev))
  {
  }

  lemma ReenumerationFollows(setup: Setup, t: Log, prepared: bool)
    ensures Follows(setup, t, if prepared then Flashing else McuAbsent, prepared, AwaitingReenumeration)
  {
  }

  lemma PresentFits(setup: Setup, t: Log, now: State, prepared: bool)
    requires now == AwaitingReenumeration || now == AwaitingMcuConfirmation || now == McuIdentityConfirmed
    ensures Fits(setup, t, now, prepared, Present)
    ensures Follows(setup, t + [Present], now, prepared, McuPresent)
  {
  }

  lemma AbsentFits(setup: Setup, t: Log, prepared: bool)
    ensures Fits(setup, t, AwaitingDisconnect, prepared, Absent)
    ensures Follows(setup, t + [Absent], AwaitingDisconnect, prepared, McuAbsent)
  {
  }

  lemma MediaFollows(setup: Setup, t: Log, prev: State)
    requires setup.monitor && prev == if setup.powerOff then McuAbsent else setup.Watched(true)
    ensures Follows(setup, t, prev, true, AwaitingMediaInstallation)
  {
  }

  lemma CycleFollows(setup: Setup, t: Log, prev: State)
    requires setup.monitor
    requires if setup.powerOff then prev == setup.Watched(true)
             else prev == AwaitingMediaInstallation && Last(t, Answered(setup.ManualPrompt(), true))
    ensures Follows(setup, t, prev, true, AwaitingPowerCycle)
  {
  }

  lemma PromptFits(setup: Setup, t: Log, prompt: Prompt, prepared: bool)
    requires setup.Offers(prompt)
    ensures Fits(setup, t, setup.Asking(prompt), prepared, Answered(prompt, true))
  {
  }

  lemma OffFits(setup: Setup, t: Log)
    requires setup.powerOff && Last(t, Answered(PowerCyclePrompt, true))
    ensures Fits(setup, t, AwaitingPowerCycle, true, PowerOff)
  {
  }

  lemma FirmwareFollows(setup: Setup, t: Log, prepared: bool)
    requires setup.verifyFirmware ==> LastFirmwareOk(setup, t)
    ensures Follows(setup, t, VerifyingFirmware, prepared, State.FirmwareVerified)
  {
  }

  lemma FailureFollows(setup: Setup, t: Log, prev: State, prepared: bool, s: State)
    requires t != [] && Causes(setup, t[|t| - 1], s)
    requires s in {FailedFlash, Timeout, ConfigError, Cancelled, FailedUpload, FailedMonitor}
    ensures Follows(setup, t, prev, prepared, s)
  {
  }

  lemma FirmwareOwes(setup: Setup, t: Log, reported: Versions, n: nat)
    requires Last(t, FirmwareSeen(reported)) && LastState(t) == VerifyingFirmware
    ensures Due(setup, t, Emitted(n, FailedFlash))
  {
    hide LastState;
  }

  lemma WaitOwes(setup: Setup, t: Log, n: nat)
    requires Last(t, Waited(false)) && !Writes(t)
    requires LastState(t) in {WaitingMoonraker, WaitingKlipperReady, WaitingMcuRegistration}
    ensures Due(setup, t, Emitted(n, Timeout))
  {
    hide LastState, Writes;
  }

  lemma CausedFollows(setup: Setup, t: Log, prev: State, prepared: bool, s: State)
    requires Caused(setup, t, s) && (s == ConfigError || s == FailedUpload || s == FailedFlash || s == Cancelled)
    ensures Follows(setup, t, prev, prepared, s)
  {
    hide Caused;
  }

  lemma RollingBackFollows(setup: Setup, t: Log, prev: State, prepared: bool)
    requires CanRollBack(prev)
    ensures Follows(setup, t, prev, prepared, RollingBack)
  {
    hide CanRollBack;
  }

  lemma ComparedFollows(setup: Setup, t: Log, prepared: bool)
    requires t != [] && t[|t| - 1].ReadBack?
    ensures Follows(setup, t, RollingBack, prepared, VerifyingRollback)
  {
  }

  lemma MoonrakerFollows(setup: Setup, t: Log, prepared: bool)
    requires MoonrakerConf in setup.planned && Last(t, MoonrakerRestarted)
    ensures Follows(setup, t, VerifyingUpload, prepared, WaitingMoonraker)
  {
  }

  lemma InForceFollows(setup: Setup, t: Log, prev: State, prepared: bool)
    requires InForce(setup, t, prev)
    ensures Follows(setup, t, prev, prepared, if setup.planned != map[] then FirmwareRestarting else VerifyingConfig)
  {
    hide InForce;
  }

  lemma RestartedFollows(setup: Setup, t: Log, prepared: bool)
    requires setup.planned != map[] && Last(t, Restarted)
    ensures Follows(setup, t, FirmwareRestarting, prepared, VerifyingConfig)
  {
  }

  lemma RefusedFollows(setup: Setup, t: Log, prev: State, prepared: bool)
    ensures Follows(setup, t, prev, prepared, FailedPrecondition)
  {
  }

  /** What is owed to a fault, when nothing is compared. */
  lemma FaultOwes(setup: Setup, t: Log, fault: Fault, n: nat)
    requires Last(t, Fell(fault))
    ensures fault == OtherFault && !RollsBack(LastState(t)) ==> Due(setup, t, Emitted(n, FailedPrecondition))
    ensures fault == OtherFault && RollsBack(LastState(t)) ==>
      Due(setup, t, Emitted(n, RollingBack)) && Due(setup, t, Emitted(n, ConfigError))
    ensures fault == MonitorFault ==> Due(setup, t, Emitted(n, FailedMonitor))
    ensures fault == TimedOut ==> Due(setup, t, Emitted(n, Timeout))
    ensures fault == Interrupted || fault == CancelRequested ==>
      && Due(setup, t, Emitted(n, RollingBack)) && Due(setup, t, Emitted(n, ConfigError))
      && (!Writes(t) ==> Due(setup, t, Emitted(n, Cancelled)))
  {
    hide LastState, Writes, RollsBack;
  }

  lemma CancelledIsCaused(setup: Setup, t: Log)
    requires t != [] && t[|t| - 1].Fell?
    ensures Caused(setup, t, ConfigError)
    ensures t[|t| - 1].fault == Interrupted || t[|t| - 1].fault == CancelRequested ==> Caused(setup, t, Cancelled)
  {
    assert Causes(setup, t[|t| - 1], ConfigError);
  }

  lemma NothingWritten(snapshot: Option<Snapshot>, t: Log)
    requires !Writes(t)
    ensures NothingLeft(snapshot, t)
  {
  }

  lemma FoundOwes(setup: Setup, t: Log)
    requires t != [] && t[|t| - 1].Found?
    ensures Due(setup, t, Fell(OtherFault))
  {
  }

  lemma RolledBackParts(snapshot: Snapshot, names: set<Name>, told: Item, compared: Item, rest: Log)
    requires Tells(told, RollingBack) && Matches(snapshot, names, compared)
    requires |rest| > 1 && Tells(rest[0], VerifyingRollback) && Verified(snapshot, names, rest[1..])
    ensures RolledBack(snapshot, names, [told] + [compared] + rest)
  {
    hide Matches, Verified;
    assert ([told] + [compared] + rest)[3..] == rest[1..];
  }

  lemma VerifiedSome(snapshot: Snapshot, names: set<Name>, items: Log)
    requires Verified(snapshot, names, items)
    ensures items != []
  {
  }

  lemma VerifiedParts(snapshot: Snapshot, names: set<Name>, read: Log, up: Log, again: Log)
    requires |read| == 1 && |again| == 1 && Matches(snapshot, names, read[0]) && Matches(snapshot, names, again[0])
    requires up == (if Known(snapshot, MoonrakerConf) then [MoonrakerRestarted] else []) + [Waited(true), Restarted, Waited(true)]
    ensures Verified(snapshot, names, read + up + again)
  {
    hide Matches;
  }

  lemma FellFits(setup: Setup, t: Log, now: State, prepared: bool, fault: Fault)
    ensures Fits(setup, t, now, prepared, Fell(fault))
  {
  }

  lemma CopyingFollows(setup: Setup, t: Log)
    requires setup.action != NoAction && !setup.monitorFirst
    ensures Follows(setup, t, setup.Base(), false, CopyingFirmware)
  {
  }

  lemma PreparedFollows(setup: Setup, t: Log)
    requires if setup.action == NoAction then setup.alreadyCopied else Last(t, Acted(Prepared))
    ensures Follows(setup, t, setup.Acting(), false, MediaPrepared)
  {
  }

  lemma WaitFits(setup: Setup, t: Log, now: State, prepared: bool)
    requires now == WaitingMoonraker || now == VerifyingConfig || now == VerifyingRollback
    ensures Fits(setup, t, now, prepared, Waited(true))
  {
  }

  lemma FoundFits(setup: Setup, t: Log, prepared: bool, name: Name)
    requires Happened(t, Checked)
    ensures forall same :: Fits(setup, t, ApplyingConfig, prepared, Found(name, same))
  {
  }

  lemma FirmwareFits(setup: Setup, t: Log, prepared: bool, reported: Versions)
    ensures Fits(setup, t, VerifyingFirmware, prepared, FirmwareSeen(reported))
  {
  }

  lemma SettledIsDue(setup: Setup, t: Log, item: Item)
    requires Settled(setup, t)
    ensures Due(setup, t, item)
  {
  }

  /** A rollback that did not recover may be told as any failure. */
  lemma AfterRollback(setup: Setup, t: Log, item: Item)
    requires Settled(setup, t) || (Last(t, Waited(false)) && LastState(t) == VerifyingRollback)
    requires item.Emitted? && (item.state == ConfigError || item.state == FailedUpload || item.state == FailedFlash)
    ensures Due(setup, t, item)
  {
    hide LastState;
  }

  lemma WaitRollsBack(setup: Setup, t: Log, n: nat)
    requires Last(t, Waited(false))
    requires LastState(t) == VerifyingConfig || (LastState(t) == WaitingMoonraker && Writes(t))
    ensures Due(setup, t, Emitted(n, RollingBack)) && Due(setup, t, Emitted(n, ConfigError)) && Caused(setup, t, ConfigError)
  {
    hide LastState, Writes;
    assert Causes(setup, t[|t| - 1], ConfigError);
  }

  lemma FirmwareRollsBack(setup: Setup, t: Log, n: nat)
    requires t != [] && t[|t| - 1].FirmwareSeen? && !setup.FirmwareOk(t[|t| - 1].reported) && LastState(t) == VerifyingConfig
    ensures Due(setup, t, Emitted(n, RollingBack)) && Due(setup, t, Emitted(n, FailedFlash)) && Caused(setup, t, FailedFlash)
  {
    hide LastState;
    assert Causes(setup, t[|t| - 1], FailedFlash);
  }

  lemma UploadsRollBack(setup: Setup, t: Log, n: nat)
    requires t != [] && t[|t| - 1].UploadsSeen? && !setup.UploadsOk(t[|t| - 1].seen)
    ensures Due(setup, t, Emitted(n, RollingBack)) && Due(setup, t, Emitted(n, FailedUpload)) && Caused(setup, t, FailedUpload)
  {
    assert Causes(setup, t[|t| - 1], FailedUpload);
  }

  lemma UploadsLast(setup: Setup, t: Log, i: int, prepared: bool)
    requires UploadsAt(setup, t, i) && i == |t| - 1
    ensures Follows(setup, t, VerifyingConfig, prepared, Done)
  {
  }

  lemma NamesStay(t: Log, more: Log)
    requires t <= more
    ensures WrittenNames(t) <= WrittenNames(more)
  {
    forall n | n in WrittenNames(t) ensures n in WrittenNames(more) {
      var i :| 0 <= i < |t| && t[i].Wrote? && t[i].name == n;
      assert more[i] == t[i];
    }
  }

  /** The rollback, then the terminal event. */
  lemma LeftAfter(snapshot: Option<Snapshot>, start: Log, items: Log, before: Log, t: Log, names: set<Name>)
    requires snapshot.Some? && RolledBack(snapshot.value, names, items) && NoWriteFrom(items, 0)
    requires before == start + items && |t| == |before| + 1 && before <= t && t[|before|].Emitted? && names == WrittenNames(t)
    ensures NothingLeft(snapshot, t)
  {
    hide RolledBack;
    assert t[|start|..|before|] == items;
    forall i | |start| <= i < |t| ensures !t[i].Wrote? && !t[i].Restored? {
      if i < |before| {
        assert t[i] == items[i - |start|];
      }
    }
    assert RolledBackAt(snapshot.value, t, |start|, |before|);
  }

  lemma NoWriteChain(t: Log, mid: Log, more: Log)
    requires t <= mid <= more && NoWriteFrom(mid, |t|) && NoWriteFrom(more, |mid|)
    ensures NoWriteFrom(more, |t|)
  {
    forall i | |t| <= i < |more| ensures !more[i].Wrote? && !more[i].Restored? {
      if i < |mid| {
        assert mid[i] == more[i];
      }
    }
  }

  lemma RestartKept(setup: Setup, t: Log, more: Log, from: nat)
    requires from <= |t| && t <= more && LastWriteBefore(t, from) && LastWriteBefore(more, |t|)
    ensures LastWriteBefore(more, from)
  {
    assert forall k :: from <= k < |t| ==> more[k] == t[k];
  }

  lemma UploadedStays(setup: Setup, t: Log, more: Log, u: int)
    requires t <= more && u == |t| - 1 && UploadsAt(setup, t, u) && LastWriteBefore(more, |t|)
    ensures UploadsAt(setup, more, u) && LastWriteBefore(more, u)
  {
    assert more[u] == t[u];
  }

  lemma ValidatedBy(setup: Setup, start: Log, seen: Log, checked: Log, t: Log, u: int, r: int, w: int, f: int)
    requires start <= seen <= checked <= t && |checked| == |seen| + 1 && |t| == |checked| + 1 && t[|checked|].Emitted?
    requires u < r < w && w + 2 == |start| && UploadsAt(setup, start, u) && LastWriteBefore(start, u)
    requires RestartedAt(setup, start, r) && UpAt(start, w)
    requires |start| - 1 <= f && FirmwareAt(setup, seen, f) && LastWriteBefore(seen, |start|)
    requires UploadsAt(setup, checked, |seen|)
    ensures Validated(setup, t)
  {
    assert t[u] == start[u] && t[r] == start[r] && t[w] == start[w] && t[w + 1] == start[w + 1];
    assert t[f] == seen[f] && t[|seen|] == checked[|seen|];
    forall k | u <= k < |t| ensures !t[k].Wrote? {
      if k < |start| {
        assert t[k] == start[k];
      } else if k < |seen| {
        assert t[k] == seen[k];
      }
    }
    assert ValidatedAt(setup, t, u, r, w, f, |seen|);
  }

  datatype Phase = Go | Stop(state: State) | Raise(fault: Fault)

  /** The answer of a call that may raise instead. */
  datatype Answer<T> = Got(value: T) | Raised(fault: Fault)

  method Ask<T(0)>() returns (a: Answer<T>)
  {
    a := *;
  }

  /** Calls to the printer raise no monitor error, and notice no cancellation. */
  method AskClient<T(0)>() returns (a: Answer<T>)
    ensures a.Raised? ==> a.fault !in {MonitorFault, CancelRequested}
  {
    a := *;
    if a.Raised? && a.fault in {MonitorFault, CancelRequested} {
      a := Raised(OtherFault);
    }
  }

  /** Waits for the printer do notice a cancellation. */
  method AskWait() returns (up: Answer<bool>)
    ensures up.Raised? ==> up.fault != MonitorFault
  {
    up := *;
    if up == Raised(MonitorFault) {
      up := Raised(CancelRequested);
    }
  }

  /**
    `restore_snapshot`: with `expected` the files are only compared with the snapshot; without, on the
    operator's request, every file of it is restored, the root last, and every other one removed.
   */
  method RestoreSnapshot(s: Snapshot, expected: Option<set<Name>>) returns (restored: Answer<bool>, ghost items: Log)
    ensures restored.Raised? ==> restored.fault == Interrupted
    ensures expected.Some? ==> items == [] || exists current :: items == [ReadBack(current)]
    ensures expected.Some? && restored == Got(true) ==> exists current ::
      items == [ReadBack(current)] && forall n :: n in expected.value ==> n in current && current[n] == Original(s, n)
    ensures expected.None? ==> forall i :: 0 <= i < |items| ==> items[i].Restored? && Known(s, items[i].name)
    ensures expected.None? && restored.Got? ==> forall n :: Known(s, n) ==> Tried(items, n)
    ensures expected.None? && restored.Got? ==> (restored.value <==> forall i :: 0 <= i < |items| ==> items[i].done)
    ensures expected.None? ==> forall i, j :: 0 <= i < j < |items| && items[i].name == Root && Root in s.files ==>
      items[j].name in s.missing
  {
    items := [];
    if expected.Some? {
      var current: Answer<Contents> := AskClient();
      if current.Raised? {
        return if current.fault == Interrupted then Raised(Interrupted) else Got(false), items;
      }
      items := [ReadBack(current.value)];
      return Got(forall n :: n in expected.value ==> n in current.value && current.value[n] == Original(s, n)), items;
    }
    restored, items := RestoreAll(s);
  }

  ghost predicate Tried(items: Log, n: Name) {
    Restored(n, true) in items || Restored(n, false) in items
  }

  method RestoreAll(s: Snapshot) returns (restored: Answer<bool>, ghost items: Log)
    ensures restored.Raised? ==> restored.fault == Interrupted
    ensures forall i :: 0 <= i < |items| ==> items[i].Restored? && Known(s, items[i].name)
    ensures restored.Got? ==> forall n :: Known(s, n) ==> Tried(items, n)
    ensures restored.Got? ==> (restored.value <==> forall i :: 0 <= i < |items| ==> items[i].done)
    ensures forall i, j :: 0 <= i < j < |items| && items[i].name == Root && Root in s.files ==> items[j].name in s.missing
  {
    var all, interrupted, files := true, false, s.files.Keys;
    items := [];
    while files != {} && !interrupted
      invariant files <= s.files.Keys
      invariant forall i :: 0 <= i < |items| ==> items[i].Restored? && items[i].name in s.files
      invariant forall n :: n in s.files && n !in files ==> Tried(items, n)
      invariant all <==> forall i :: 0 <= i < |items| ==> items[i].done
      invariant forall i :: 0 <= i < |items| && items[i].name == Root ==> files == {} && i == |items| - 1
    {
      var n :| n in files && (n == Root ==> files == {Root});
      files := files - {n};
      var done: Answer<bool> := AskClient();
      ghost var past := items;
      items := past + [Restored(n, done == Got(true))];
      assert items[|past|].done <==> done == Got(true);
      assert forall i :: 0 <= i < |past| ==> items[i] == past[i];
      interrupted := done == Raised(Interrupted);
      all := all && done == Got(true);
      assert all <==> (forall i :: 0 <= i < |past| ==> past[i].done) && items[|past|].done;
    }
    ghost var uploads := items;
    var gone := s.missing;
    while gone != {} && !interrupted
      invariant gone <= s.missing && (files == {} || interrupted)
      invariant |uploads| <= |items| && forall i :: 0 <= i < |uploads| ==> items[i] == uploads[i]
      invariant forall i :: |uploads| <= i < |items| ==> items[i].Restored? && items[i].name in s.missing
      invariant forall n :: n in s.missing && n !in gone ==> Tried(items, n)
      invariant all <==> forall i :: 0 <= i < |items| ==> items[i].done
    {
      var n :| n in gone;
      gone := gone - {n};
      var done: Answer<bool> := AskClient();
      ghost var past := items;
      items := past + [Restored(n, done == Got(true))];
      assert items[|past|].done <==> done == Got(true);
      assert forall i :: 0 <= i < |past| ==> items[i] == past[i];
      interrupted := done == Raised(Interrupted);
      all := all && done == Got(true);
      assert all <==> (forall i :: 0 <= i < |past| ==> past[i].done) && items[|past|].done;
    }
    restored := if interrupted then Raised(Interrupted) else Got(all);
  }

  class Deployer {
    const setup: Setup
    var state: State
    var sequence: nat
    var snapshot: Option<Snapshot>
    var prepared: bool
    var started: bool
    var attempted: Store
    ghost var log: Log

    ghost predicate Valid()
      reads this
    {
      && Safe(setup, log) && sequence == Emissions(log) && state == LastState(log)
      && (prepared <==> Told(log, MediaPrepared)) && (started <==> Begun(log))
      && (Happened(log, Vetted) ==> Publishable(setup, snapshot))
      && attempted.Keys == WrittenNames(log) && (!started ==> !Writes(log) && attempted == map[])
      && forall n :: n in attempted ==> snapshot.Some? && Known(snapshot.value, n)
    }

    ghost predicate Live()
      reads this
    {
      Valid() && !Ended(log) && !Terminal(state) && Settled(setup, log)
    }

    constructor (setup: Setup, snapshot: Option<Snapshot>)
      ensures this.setup == setup && this.snapshot == snapshot
      ensures Live() && log == [] && !started && state == Init
    {
      this.setup, this.snapshot := setup, snapshot;
      state, sequence, prepared, started, attempted, log := Init, 0, false, false, map[], [];
    }

    ghost method Note(item: Item)
      requires Valid() && !item.Emitted? && !item.Wrote? && !item.Restored? && !(item.Found? && item.same)
      requires Due(setup, log, item) && Fits(setup, log, state, prepared, item)
      requires item == Vetted ==> Publishable(setup, snapshot)
      modifies this`log
      ensures Valid() && log == old(log) + [item]
      ensures (Ended(log) <==> old(Ended(log))) && (Writes(log) <==> old(Writes(log)))
      ensures !Ended(log) && !Terminal(state) && Calm(setup, item) ==> Live()
    {
      hide Safe, Emissions, LastState, Told, Begun, Ended, Writes, WrittenNames, Due, Fits, Happened, Publishable, Calm;
      assert Earned(setup, log, item);
      SafeSnoc(setup, log, item);
      WrittenSnoc(log, item);
      ToldSnoc(log, item, MediaPrepared);
      HappenedSnoc(log, item, Vetted);
      log := log + [item];
    }

    /** `_transition`. */
    method Emit(to: State)
      requires Valid() && !Ended(log) && to != MediaPrepared
      requires Due(setup, log, Emitted(sequence + 1, to)) && Follows(setup, log, state, prepared, to)
      modifies this`state, this`sequence, this`log
      ensures Valid() && state == to && log == old(log) + [Emitted(sequence, to)]
      ensures (Ended(log) <==> Terminal(to)) && (Writes(log) <==> old(Writes(log))) && Settled(setup, log)
    {
      hide Safe, Emissions, LastState, Told, Begun, Ended, Writes, WrittenNames, Due, Follows, Happened, Publishable;
      ghost var item := Emitted(sequence + 1, to);
      assert Earned(setup, log, item);
      state := to;
      sequence := sequence + 1;
      SafeSnoc(setup, log, item);
      WrittenSnoc(log, item);
      ToldSnoc(log, item, MediaPrepared);
      HappenedSnoc(log, item, Vetted);
      log := log + [item];
    }

    method TellPrepared()
      requires Live() && Follows(setup, log, state, prepared, MediaPrepared)
      modifies this`state, this`sequence, this`prepared, this`log
      ensures Live() && prepared && state == MediaPrepared && log == old(log) + [Emitted(sequence, MediaPrepared)]
      ensures Writes(log) <==> old(Writes(log))
    {
      hide Safe, Emissions, LastState, Told, Begun, Ended, Writes, WrittenNames, Follows, Happened, Publishable;
      ghost var item := Emitted(sequence + 1, MediaPrepared);
      assert Earned(setup, log, item);
      state, sequence, prepared := MediaPrepared, sequence + 1, true;
      SafeSnoc(setup, log, item);
      WrittenSnoc(log, item);
      ToldSnoc(log, item, MediaPrepared);
      HappenedSnoc(log, item, Vetted);
      log := log + [item];
    }

    /** A phase stops with the terminal event as its last item; what it raises may be answered. */
    ghost predicate Ends(p: Phase)
      reads this
    {
      && Valid() && (p.Stop? <==> Ended(log))
      && (p.Stop? ==> Terminal(p.state) && log != [] && log[|log| - 1] == Emitted(sequence, p.state))
      && (p.Go? ==> Live())
      && (p.Raise? ==> !Terminal(state) && (Settled(setup, log) || Due(setup, log, Fell(p.fault))))
    }

    method Finish(to: State) returns (p: Phase)
      requires Valid() && !Ended(log) && Terminal(to)
      requires Due(setup, log, Emitted(sequence + 1, to)) && Follows(setup, log, state, prepared, to)
      modifies this`state, this`sequence, this`log
      ensures Ends(p) && p == Stop(to) && state == to && log == old(log) + [Emitted(sequence, to)]
      ensures (Writes(log) <==> old(Writes(log))) && NoWriteFrom(log, |old(log)|)
    {
      hide Valid, Ended, Writes, Due, Follows;
      Emit(to);
      p := Stop(to);
    }

    /** Capturing the backup, and the check that every write can be conditioned. */
    method Prepare() returns (p: Phase)
      requires Live() && !started && state == Init && log == [] && !prepared
      modifies this`state, this`sequence, this`log, this`snapshot
      ensures Ends(p) && !Writes(log)
      ensures p.Stop? ==> p.state == FailedPrecondition
      ensures p.Raise? ==> state in {Init, Backup}
      ensures p.Go? ==> state == setup.Start() && Happened(log, Vetted)
    {
      hide Safe, Emissions, LastState, WrittenNames, Ended, Writes, Told;
      if setup.loader {
        Emit(Backup);
        var loaded: Answer<Option<Snapshot>> := Ask();
        if loaded.Raised? {
          return Raise(loaded.fault);
        }
        HappenedSnoc([], log[0], Vetted);
        snapshot := loaded.value;
        if setup.planned != map[] && snapshot.None? {
          p := Finish(FailedPrecondition);
          return;
        }
      }
      var names := setup.planned.Keys;
      while names != {}
        invariant names <= setup.planned.Keys
        invariant forall n :: n in setup.planned && n !in names ==>
          snapshot.Some? && Known(snapshot.value, n) && setup.supportsCas(Original(snapshot.value, n))
      {
        var n :| n in names;
        if snapshot.None? || !Known(snapshot.value, n) || !setup.supportsCas(Original(snapshot.value, n)) {
          p := Finish(FailedPrecondition);
          return;
        }
        names := names - {n};
      }
      ghost var before := log;
      Note(Vetted);
      HappenedSnoc(before, Vetted, Vetted);
      p := Go;
    }

    /** The monitor watches the board from here on. */
    method Arm() returns (p: Phase)
      requires Live() && setup.monitor && Happened(log, Vetted)
      requires state == if setup.monitorFirst then setup.Start() else setup.AfterFirmware(prepared)
      modifies this`state, this`sequence, this`log
      ensures Ends(p) && !p.Stop? && old(log) <= log && (Writes(log) <==> old(Writes(log)))
      ensures state == if p.Go? then MonitorArmed else old(state)
    {
      hide Valid, Ended, Writes, Happened;
      var arm: Answer<()> := Ask();
      if arm.Raised? {
        return Raise(arm.fault);
      }
      Note(Armed);
      Emit(MonitorArmed);
      p := Go;
    }

    /** An automatic flash is monitored from before it starts. */
    method ArmFirst() returns (p: Phase)
      requires Live() && !prepared && state == setup.Start() && Happened(log, Vetted)
      modifies this`state, this`sequence, this`log
      ensures Ends(p) && !p.Stop? && old(log) <= log && (Writes(log) <==> old(Writes(log)))
      ensures state == if p.Go? then setup.Base() else old(state)
    {
      hide Valid, Ended, Writes, Happened;
      p := Go;
      if setup.monitorFirst && setup.monitor {
        p := Arm();
        if p.Go? {
          Emit(AwaitingBootloader);
          Emit(Flashing);
        }
      }
    }

    /** Only a prepared medium or a finished flash lets the run go on. */
    method Conclude(outcome: Outcome) returns (p: Phase)
      requires Valid() && !Ended(log) && !Terminal(state) && !prepared && setup.action != NoAction && state == setup.Acting()
      requires Last(log, Acted(outcome))
      modifies this`state, this`sequence, this`prepared, this`log
      ensures Ends(p) && !p.Raise? && old(log) <= log && (Writes(log) <==> old(Writes(log)))
      ensures p.Stop? <==> outcome !in {Prepared, Flashed}
      ensures p.Stop? ==> p.state == AnswerTo(outcome)
      ensures p.Go? ==> state == setup.AfterFirmware(prepared)
    {
      hide Valid, Ended, Writes, Happened, Cycled;
      if outcome == OutcomeCancelled {
        assert Causes(setup, log[|log| - 1], Cancelled);
        p := Finish(Cancelled);
      } else if outcome in {ActionRequired, Unknown} {
        p := Finish(FailedPrecondition);
      } else if outcome == Failed {
        assert Causes(setup, log[|log| - 1], FailedFlash);
        p := Finish(FailedFlash);
      } else {
        if outcome == Prepared {
          TellPrepared();
        } else if !setup.monitorFirst {
          Emit(Flashing);
        }
        p := Go;
      }
    }

    /** The firmware action, up to the prepared medium or the finished automatic flash. */
    method Firmware() returns (p: Phase)
      requires Live() && !prepared && state == setup.Base() && Happened(log, Vetted)
      modifies this`state, this`sequence, this`prepared, this`log
      ensures Ends(p) && old(log) <= log && (Writes(log) <==> old(Writes(log)))
      ensures p.Stop? ==> p.state in {Cancelled, FailedPrecondition, FailedFlash}
      ensures p.Raise? ==> state in {old(state), CopyingFirmware}
      ensures p.Go? ==> state == setup.AfterFirmware(prepared) && Installed(setup, log) && (prepared ==> setup.monitor)
    {
      hide Valid, Ended, Writes, Happened, Follows, Answers;
      p := Go;
      if setup.action != NoAction {
        if !setup.monitorFirst {
          CopyingFollows(setup, log);
          Emit(CopyingFirmware);
        }
        var outcome: Answer<Outcome> := Ask();
        if outcome.Raised? {
          return Raise(outcome.fault);
        }
        HappenedStays(old(log), log);
        ghost var before := log;
        Note(Acted(outcome.value));
        HappenedSnoc(before, Acted(outcome.value), Acted(outcome.value));
        before := log;
        p := Conclude(outcome.value);
        if p.Stop? {
          return;
        }
        HappenedStays(before, log);
      } else if setup.alreadyCopied {
        PreparedFollows(setup, log);
        TellPrepared();
      }
      HappenedStays(old(log), log);
      if prepared && !setup.monitor {
        RefusedFollows(setup, log, state, prepared);
        p := Finish(FailedPrecondition);
      }
    }

    method Pose(prompt: Prompt) returns (p: Phase, yes: bool)
      requires Live() && Fits(setup, log, state, prepared, Answered(prompt, true))
      modifies this`log
      ensures Valid() && !Ended(log) && !p.Stop? && old(log) <= log && (Writes(log) <==> old(Writes(log)))
      ensures if p.Go? then log == old(log) + [Answered(prompt, yes)] else log == old(log)
    {
      hide Valid, Ended, Writes, RelayCycle, ManualCycle;
      var answer: Answer<bool> := Ask();
      if answer.Raised? {
        return Raise(answer.fault), false;
      }
      Note(Answered(prompt, answer.value));
      return Go, answer.value;
    }

    /** A prompt that was refused ends the run. */
    method Refuse() returns (p: Phase)
      requires Valid() && !Ended(log) && log != [] && log[|log| - 1].Answered? && !log[|log| - 1].yes
      requires log[|log| - 1].prompt != IdentityPrompt
      modifies this`state, this`sequence, this`log
      ensures Ends(p) && p == Stop(Cancelled) && old(log) <= log && (Writes(log) <==> old(Writes(log)))
    {
      hide Valid, Ended, Writes, RelayCycle, ManualCycle;
      assert Causes(setup, log[|log| - 1], Cancelled);
      p := Finish(Cancelled);
    }

    /** The confirmation before the board goes away; with a relay the printer is switched off here. */
    method ConfirmRemoval() returns (p: Phase, ghost c: int, ghost o: int)
      requires Live() && prepared && setup.monitor && state == setup.Watched(true)
      modifies this`state, this`sequence, this`log
      ensures Ends(p) && old(log) <= log && (Writes(log) <==> old(Writes(log)))
      ensures p.Stop? ==> p.state in {Cancelled, FailedPrecondition}
      ensures p.Raise? ==> state in {AwaitingPowerCycle, AwaitingMediaInstallation}
      ensures p.Go? ==> state == AwaitingPowerCycle
      ensures p.Go? && setup.powerOff ==>
        c < o && At(log, c, Answered(PowerCyclePrompt, true)) && At(log, o, PowerOff) && Last(log, PowerOff)
      ensures p.Go? && !setup.powerOff ==> At(log, c, Answered(setup.ManualPrompt(), true))
    {
      hide Valid, Ended, Writes, Cycled, Answers, WrittenNames, Fits, Follows;
      c, o := 0, 0;
      var yes: bool;
      if setup.powerOff {
        CycleFollows(setup, log, state);
      } else {
        MediaFollows(setup, log, state);
      }
      Emit(if setup.powerOff then AwaitingPowerCycle else AwaitingMediaInstallation);
      if !setup.cyclePrompt && (setup.powerOff || !setup.mediaPrompt) {
        RefusedFollows(setup, log, state, prepared);
        p := Finish(FailedPrecondition);
        return;
      }
      ghost var prompt := if setup.mediaPrompt && !setup.powerOff then MediaPrompt else PowerCyclePrompt;
      PromptFits(setup, log, prompt, prepared);
      p, yes := Pose(if setup.mediaPrompt && !setup.powerOff then MediaPrompt else PowerCyclePrompt);
      if p.Raise? {
        return;
      }
      if !yes {
        p := Refuse();
        return;
      }
      c := |log| - 1;
      assert At(log, c, log[c]);
      if setup.powerOff {
        OffFits(setup, log);
        Note(PowerOff);
        o := |log| - 1;
        var off: Answer<()> := Ask();
        p := if off.Raised? then Raise(off.fault) else Go;
      } else {
        CycleFollows(setup, log, state);
        Emit(AwaitingPowerCycle);
      }
    }

    method AwaitAbsent() returns (p: Phase, ghost a: int)
      requires Live() && Follows(setup, log, state, prepared, AwaitingDisconnect)
      modifies this`state, this`sequence, this`log
      ensures Ends(p) && !p.Stop? && old(log) <= log && (Writes(log) <==> old(Writes(log)))
      ensures state == if p.Go? then McuAbsent else AwaitingDisconnect
      ensures p.Go? ==> |old(log)| <= a && At(log, a, Absent)
    {
      hide Valid, Ended, Writes, Answers, WrittenNames, Fits, Follows;
      Emit(AwaitingDisconnect);
      var gone: Answer<()> := Ask();
      if gone.Raised? {
        return Raise(gone.fault), 0;
      }
      AbsentFits(setup, log, prepared);
      Note(Absent);
      a := |log| - 1;
      Emit(McuAbsent);
      p := Go;
    }

    /** With a relay, the confirmation that the medium is in while the printer is off. */
    method ConfirmMedia(ghost c: int, ghost o: int, ghost a: int) returns (p: Phase)
      requires Live() && prepared && setup.monitor && state == McuAbsent && At(log, a, Absent)
      requires setup.powerOff ==> c < o < a && At(log, c, Answered(PowerCyclePrompt, true)) && At(log, o, PowerOff)
      requires !setup.powerOff ==> c < a && At(log, c, Answered(setup.ManualPrompt(), true))
      modifies this`state, this`sequence, this`log
      ensures Ends(p) && old(log) <= log && (Writes(log) <==> old(Writes(log)))
      ensures p.Stop? ==> p.state in {Cancelled, FailedPrecondition}
      ensures !p.Stop? ==> state == if setup.powerOff then AwaitingMediaInstallation else McuAbsent
      ensures p.Go? ==> Cycled(setup, log)
    {
      hide Valid, Ended, Writes, RelayCycle, ManualCycle, Answers, WrittenNames, Happened, Fits, Follows;
      if !setup.powerOff {
        ManualDone(setup, log, c, a);
        return Go;
      }
      MediaFollows(setup, log, state);
      Emit(AwaitingMediaInstallation);
      if !setup.mediaPrompt {
        RefusedFollows(setup, log, state, prepared);
        p := Finish(FailedPrecondition);
        return;
      }
      var yes: bool;
      PromptFits(setup, log, MediaPrompt, prepared);
      p, yes := Pose(MediaPrompt);
      if p.Go? {
        if yes {
          RelayDone(log, c, o, a, |log| - 1);
        } else {
          p := Refuse();
        }
      }
    }

    method SwitchOn() returns (p: Phase)
      requires Live() && Cycled(setup, log) && Follows(setup, log, state, prepared, AwaitingBootloader) && prepared
      modifies this`state, this`sequence, this`log
      ensures Ends(p) && !p.Stop? && old(log) <= log && (Writes(log) <==> old(Writes(log)))
      ensures state == if p.Go? then Flashing else AwaitingBootloader
    {
      hide Valid, Ended, Writes, RelayCycle, ManualCycle, Answers;
      Emit(AwaitingBootloader);
      CycledStays(setup, old(log), log);
      if setup.powerOn {
        Note(PowerOn);
        var on: Answer<()> := Ask();
        if on.Raised? {
          return Raise(on.fault);
        }
      }
      Emit(Flashing);
      p := Go;
    }

    /** The monitor asks the operator about a doubtful identity. */
    method ConfirmIdentity() returns (p: Phase)
      requires Live() && state == AwaitingReenumeration
      modifies this`state, this`sequence, this`log
      ensures Ends(p) && !p.Stop? && old(log) <= log && (Writes(log) <==> old(Writes(log)))
      ensures state in {AwaitingMcuConfirmation, McuIdentityConfirmed}
    {
      hide Valid, Ended, Writes, Cycled, RelayCycle, ManualCycle, Answers;
      Emit(AwaitingMcuConfirmation);
      var yes: bool;
      p, yes := Pose(IdentityPrompt);
      if p.Go? && yes {
        Emit(McuIdentityConfirmed);
      }
    }

    method AwaitPresent() returns (p: Phase)
      requires Live() && state == if prepared then Flashing else McuAbsent
      modifies this`state, this`sequence, this`log
      ensures Ends(p) && !p.Stop? && old(log) <= log && (Writes(log) <==> old(Writes(log)))
      ensures if p.Go? then state == McuPresent
              else state in {AwaitingReenumeration, AwaitingMcuConfirmation, McuIdentityConfirmed}
    {
      hide Valid, Ended, Writes, Answers, Fits, Follows, WrittenNames;
      ReenumerationFollows(setup, log, prepared);
      Emit(AwaitingReenumeration);
      var doubtful: bool := *;
      if doubtful {
        p := ConfirmIdentity();
        if p.Raise? {
          return;
        }
      }
      var back: Answer<()> := Ask();
      if back.Raised? {
        return Raise(back.fault);
      }
      PresentFits(setup, log, state, prepared);
      Note(Present);
      Emit(McuPresent);
      p := Go;
    }

    /** Removal, and with a prepared medium everything around it. */
    method RemoveBoard() returns (p: Phase)
      requires Live() && setup.monitor && state == setup.Watched(prepared) && Installed(setup, log)
      modifies this`state, this`sequence, this`log
      ensures Ends(p) && old(log) <= log && (Writes(log) <==> old(Writes(log)))
      ensures p.Stop? ==> p.state in {Cancelled, FailedPrecondition}
      ensures p.Raise? ==> !RollsBack(state) && !Exposed(state)
      ensures p.Go? ==> state == if prepared then Flashing else McuAbsent
    {
      hide Valid, Ended, Writes, RelayCycle, ManualCycle, Happened, Due, Settled, Fits;
      ghost var c, o, a := 0, 0, 0;
      if prepared {
        p, c, o := ConfirmRemoval();
        if !p.Go? {
          return;
        }
      }
      HappenedStays(old(log), log);
      ghost var before := log;
      p, a := AwaitAbsent();
      if p.Go? && prepared {
        p := ConfirmMedia(c, o, a);
        if p.Go? {
          p := SwitchOn();
        }
      }
    }

    /** The physical part: removal, installation and return of the board. */
    method PowerCycle() returns (p: Phase)
      requires Live() && state == setup.AfterFirmware(prepared) && Installed(setup, log) && Happened(log, Vetted)
      requires prepared ==> setup.monitor
      modifies this`state, this`sequence, this`log
      ensures Ends(p) && old(log) <= log && (Writes(log) <==> old(Writes(log)))
      ensures p.Stop? ==> p.state in {Cancelled, FailedPrecondition}
      ensures p.Raise? ==> !RollsBack(state) && !Exposed(state)
      ensures p.Go? ==> Follows(setup, log, state, prepared, WaitingMoonraker) && state != VerifyingUpload
    {
      hide Valid, Ended, Writes, RelayCycle, ManualCycle, Happened, Due, Settled, Fits;
      p := Go;
      if setup.monitor {
        if !setup.monitorFirst {
          p := Arm();
          if p.Raise? {
            return;
          }
          HappenedStays(old(log), log);
        }
        p := RemoveBoard();
        if p.Go? {
          p := AwaitPresent();
        }
      }
    }

    /** Moonraker, Klipper and the boards are back, and the firmware is the one that was built. */
    method AwaitFirmware() returns (p: Phase)
      requires Live() && !Writes(log) && Follows(setup, log, state, prepared, WaitingMoonraker) && state != VerifyingUpload
      modifies this`state, this`sequence, this`log
      ensures Ends(p) && old(log) <= log && !Writes(log)
      ensures p.Stop? ==> p.state in {Timeout, FailedFlash}
      ensures p.Raise? ==> !RollsBack(state)
      ensures p.Go? ==> state == State.FirmwareVerified
    {
      hide Valid, Ended, Writes, Follows, Happened, Due, Settled, Fits;
      p := Await(WaitingMoonraker);
      if p.Go? {
        Forward(setup, log, state, prepared, WaitingKlipperReady);
        p := Await(WaitingKlipperReady);
        if p.Go? {
          Forward(setup, log, state, prepared, WaitingMcuRegistration);
          p := Await(WaitingMcuRegistration);
          if p.Go? {
            p := CheckFirmware();
          }
        }
      }
    }

    /** The end of a bounded wait. */
    method Wait() returns (up: Answer<bool>)
      requires Live() && Fits(setup, log, state, prepared, Waited(true))
      modifies this`log
      ensures Valid() && !Ended(log) && (Writes(log) <==> old(Writes(log)))
      ensures log == old(log) + if up.Got? then [Waited(up.value)] else []
      ensures up.Raised? ==> up.fault != MonitorFault
    {
      hide Valid, Ended, Writes;
      up := AskWait();
      if up.Got? {
        Note(Waited(up.value));
      }
    }

    /** A bounded wait before anything is written, and the state it leads to. */
    method Await(waiting: State) returns (p: Phase)
      requires Live() && !Writes(log) && Follows(setup, log, state, prepared, waiting)
      requires Awaited(waiting) != Init
      modifies this`state, this`sequence, this`log
      ensures Ends(p) && old(log) <= log && !Writes(log)
      ensures p.Stop? ==> p.state == Timeout
      ensures p.Raise? ==> state == waiting
      ensures p.Go? ==> state == Awaited(waiting)
    {
      hide Safe, Emissions, Told, Ended, Writes, WrittenNames, Happened, Publishable, LastState, Follows, Answers;
      Emit(waiting);
      var up := Wait();
      if up.Raised? {
        return Raise(up.fault);
      }
      if !up.value {
        FailureFollows(setup, log, state, prepared, Timeout);
        WaitOwes(setup, log, sequence + 1);
        p := Finish(Timeout);
        return;
      }
      Reached(setup, log, state, prepared);
      Emit(Awaited(waiting));
      p := Go;
    }

    method CheckFirmware() returns (p: Phase)
      requires Live() && !Writes(log) && state == McuRegistered
      modifies this`state, this`sequence, this`log
      ensures Ends(p) && !p.Raise? && old(log) <= log && !Writes(log)
      ensures p.Stop? ==> p.state == FailedFlash
      ensures !p.Stop? ==> state == State.FirmwareVerified
    {
      hide Safe, Emissions, Told, Ended, Writes, WrittenNames, Happened, Publishable, LastState, Follows, Answers, Fits, Due, Begun;
      SettledIsDue(setup, log, Emitted(sequence + 1, VerifyingFirmware));
      Forward(setup, log, state, prepared, VerifyingFirmware);
      Emit(VerifyingFirmware);
      if setup.verifyFirmware {
        var reported: Versions := *;
        FirmwareFits(setup, log, prepared, reported);
        SettledIsDue(setup, log, FirmwareSeen(reported));
        Note(FirmwareSeen(reported));
        if !setup.FirmwareOk(reported) {
          FailureFollows(setup, log, state, prepared, FailedFlash);
          FirmwareOwes(setup, log, reported, sequence + 1);
          p := Finish(FailedFlash);
          return;
        }
      }
      FirmwareFollows(setup, log, prepared);
      SettledIsDue(setup, log, Emitted(sequence + 1, State.FirmwareVerified));
      Emit(State.FirmwareVerified);
      p := Go;
    }

    /** What the fields hold of the trace. */
    lemma Held()
      requires Valid()
      ensures state == LastState(log) && attempted.Keys == WrittenNames(log)
      ensures (Writes(log) <==> WrittenNames(log) != {}) && (Writes(log) ==> started) && (started <==> Begun(log))
      ensures forall n :: n in attempted ==> snapshot.Some? && Known(snapshot.value, n)
    {
      hide Safe, Emissions, LastState, Told, Happened, Publishable;
      if Writes(log) {
        var i :| 0 <= i < |log| && log[i].Wrote?;
        assert log[i].name in WrittenNames(log);
      }
    }

    /** The file is as in its backup: from here on a failure may have to be rolled back. */
    method Begin(name: Name)
      requires Live() && state == ApplyingConfig && Happened(log, Checked)
      modifies this`started, this`log
      ensures Live() && started && log == old(log) + [Found(name, true)]
    {
      hide Safe, Emissions, LastState, Told, Begun, WrittenNames, Ended, Writes, Answers, Happened, Publishable;
      ghost var item := Found(name, true);
      assert Earned(setup, log, item);
      started := true;
      SafeSnoc(setup, log, item);
      WrittenSnoc(log, item);
      ToldSnoc(log, item, MediaPrepared);
      HappenedSnoc(log, item, Vetted);
      log := log + [item];
    }

    method Attempt(name: Name)
      requires Live() && state == ApplyingConfig && name in setup.planned && Last(log, Found(name, true))
      requires name == Root ==> setup.planned.Keys - {Root} <= attempted.Keys
      requires started && snapshot.Some? && Known(snapshot.value, name)
      modifies this`attempted, this`log
      ensures Live() && log == old(log) + [Wrote(name)] && attempted.Keys == old(attempted.Keys) + {name}
    {
      hide Safe, Emissions, LastState, Told, WrittenNames, Ended, Writes, Answers, Happened, Publishable;
      attempted := attempted[name := setup.planned[name]];
      assert Earned(setup, log, Wrote(name));
      SafeSnoc(setup, log, Wrote(name));
      WrittenSnoc(log, Wrote(name));
      ToldSnoc(log, Wrote(name), MediaPrepared);
      HappenedSnoc(log, Wrote(name), Vetted);
      log := log + [Wrote(name)];
    }

    /** One conditional upload: the reviewed content must still be there. */
    method Upload(name: Name) returns (p: Phase)
      requires Live() && state == ApplyingConfig && name in setup.planned && Happened(log, Checked)
      requires name == Root ==> setup.planned.Keys - {Root} <= attempted.Keys
      modifies this`started, this`attempted, this`log
      ensures Ends(p) && !p.Stop? && old(log) <= log
      ensures p.Raise? ==> p.fault != MonitorFault
      ensures p.Go? ==> attempted.Keys == old(attempted.Keys) + {name}
    {
      hide Safe, Emissions, LastState, Told, WrittenNames, Ended, Writes, Happened, Publishable, Answers, Follows, Fits;
      if snapshot.None? || !Known(snapshot.value, name) {
        return Raise(OtherFault);
      }
      var current: Answer<Option<Bytes>> := AskClient();
      if current.Raised? {
        return Raise(current.fault);
      }
      if current.value != Original(snapshot.value, name) {
        FoundFits(setup, log, prepared, name);
        Note(Found(name, false));
        FoundOwes(setup, log);
        return Raise(OtherFault);
      }
      Begin(name);
      var source: Answer<()> := AskClient();
      if source.Raised? {
        return Raise(source.fault);
      }
      Attempt(name);
      var done: Answer<()> := AskClient();
      p := if done.Raised? then Raise(done.fault) else Go;
    }

    /** The uploads, the root file last; a failed final check has written nothing. */
    method Publish() returns (p: Phase)
      requires Live() && !started && state == State.FirmwareVerified
      modifies this`state, this`sequence, this`log, this`started, this`attempted
      ensures Ends(p) && old(log) <= log
      ensures p.Stop? ==> p.state == FailedPrecondition && !started
      ensures !p.Stop? ==> state == ApplyingConfig
      ensures p.Raise? ==> p.fault != MonitorFault
      ensures p.Go? ==> setup.planned.Keys <= WrittenNames(log) && Happened(log, Checked)
    {
      hide Valid, Ended, Writes, Happened, WrittenNames, Answers;
      Emit(ApplyingConfig);
      var check: Answer<()> := Ask();
      if check.Raised? && check.fault != Interrupted {
        p := Finish(FailedPrecondition);
        return;
      }
      if check.Raised? {
        return Raise(check.fault);
      }
      ghost var before := log;
      Held();
      Note(Checked);
      HappenedSnoc(before, Checked, Checked);
      p := UploadEach();
      Held();
    }

    method UploadEach() returns (p: Phase)
      requires Live() && state == ApplyingConfig && Happened(log, Checked)
      modifies this`log, this`started, this`attempted
      ensures Ends(p) && !p.Stop? && old(log) <= log && Happened(log, Checked)
      ensures p.Raise? ==> p.fault != MonitorFault
      ensures p.Go? ==> setup.planned.Keys <= attempted.Keys
    {
      hide Valid, Ended, Writes, Happened, WrittenNames, Answers, Follows;
      var names := setup.planned.Keys;
      while names != {}
        invariant names <= setup.planned.Keys && setup.planned.Keys - names <= attempted.Keys
        invariant Live() && old(log) <= log && Happened(log, Checked)
      {
        ghost var before := log;
        var name :| name in names && (name == Root ==> names == {Root});
        p := Upload(name);
        HappenedStays(before, log);
        if p.Raise? {
          return;
        }
        names := names - {name};
      }
      p := Go;
    }

    /** What the bytes of the written files are found to be after a restoration. */
    method VerifyRestoredBytes() returns (ok: Answer<bool>, ghost items: Log)
      requires Live() && snapshot.Some? && state == VerifyingRollback
      modifies this`log
      ensures Live() && log == old(log) + items && (Writes(log) <==> old(Writes(log))) && NoWriteFrom(items, 0)
      ensures ok == Got(true) ==> |items| == 1 && items[0].ReadBack? && Matches(snapshot.value, attempted.Keys, items[0])
      ensures ok.Raised? ==> ok.fault != MonitorFault
    {
      hide Valid, Ended, Writes, WrittenNames, Follows, Answers;
      items := [];
      var current: Answer<Contents> := AskClient();
      if current.Raised? {
        return Raised(current.fault), items;
      }
      Held();
      items := [ReadBack(current.value)];
      Note(ReadBack(current.value));
      ok := Got(forall n :: n in attempted ==>
                  n in current.value && current.value[n] == Original(snapshot.value, n));
    }

    method CompareRestored() returns (restored: Answer<bool>, ghost items: Log)
      requires Live() && snapshot.Some? && state == RollingBack
      modifies this`log
      ensures Live() && log == old(log) + items && (Writes(log) <==> old(Writes(log))) && NoWriteFrom(items, 0)
      ensures restored == Got(true) ==> |items| == 1 && items[0].ReadBack? && Matches(snapshot.value, attempted.Keys, items[0])
      ensures restored.Raised? ==> restored.fault == Interrupted
    {
      hide Valid, Ended, Writes, WrittenNames, Follows, Answers;
      restored, items := RestoreSnapshot(snapshot.value, Some(attempted.Keys));
      Held();
      if items != [] {
        Note(items[0]);
      }
    }

    /** A restored moonraker.conf takes effect again. */
    method RestoreMoonraker() returns (up: Answer<bool>, ghost items: Log)
      requires Live() && snapshot.Some? && state == VerifyingRollback && log != [] && log[|log| - 1].ReadBack?
      modifies this`log
      ensures Live() && log == old(log) + items && (Writes(log) <==> old(Writes(log))) && NoWriteFrom(items, 0)
      ensures up == Got(true) ==> items == if Known(snapshot.value, MoonrakerConf) then [MoonrakerRestarted] else []
      ensures up.Raised? ==> up.fault == Interrupted
    {
      hide Valid, Ended, Writes, WrittenNames, Answers, Follows;
      items, up := [], Got(true);
      if Known(snapshot.value, MoonrakerConf) {
        var restarted: Answer<()> := AskClient();
        if restarted.Raised? {
          return if restarted.fault == Interrupted then Raised(Interrupted) else Got(false), items;
        }
        items := [MoonrakerRestarted];
        Note(MoonrakerRestarted);
      }
    }

    /** Moonraker and Klipper come back after a restoration. */
    method BringBack() returns (up: Answer<bool>, ghost items: Log)
      requires Live() && state == VerifyingRollback
      modifies this`log
      ensures Valid() && !Ended(log) && log == old(log) + items && (Writes(log) <==> old(Writes(log))) && NoWriteFrom(items, 0)
      ensures up == Got(true) ==> items == [Waited(true), Restarted, Waited(true)]
      ensures up.Raised? ==> up.fault != MonitorFault
      ensures Settled(setup, log) || (up == Got(false) && Last(log, Waited(false)))
    {
      hide Valid, Ended, Writes, WrittenNames, Answers, Follows;
      up := Wait();
      items := if up.Got? then [Waited(up.value)] else [];
      if up.Raised? || !up.value {
        return;
      }
      var restart: Answer<()> := AskClient();
      if restart.Raised? {
        return if restart.fault == Interrupted then Raised(Interrupted) else Got(false), items;
      }
      Note(Restarted);
      items := [Waited(true), Restarted];
      up := Wait();
      items := items + if up.Got? then [Waited(up.value)] else [];
    }

    /**
      Compares the written files with the snapshot, before and after Klipper came back; it writes nothing,
      since an unconditional restoration could undo the edit of someone else.
     */
    method Rollback() returns (recovered: Answer<bool>, ghost items: Log)
      requires Valid() && !Ended(log) && CanRollBack(state) && Due(setup, log, Emitted(sequence + 1, RollingBack))
      modifies this`state, this`sequence, this`log
      ensures Valid() && !Ended(log) && log == old(log) + items && (Writes(log) <==> old(Writes(log))) && NoWriteFrom(items, 0)
      ensures if snapshot.None? then recovered == Got(false) && items == [] && state == old(state) && sequence == old(sequence)
              else items != [] && state in {RollingBack, VerifyingRollback}
      ensures recovered == Got(true) ==> snapshot.Some? && RolledBack(snapshot.value, attempted.Keys, items)
      ensures recovered.Raised? ==> snapshot.Some? && recovered.fault != MonitorFault
      ensures snapshot.None? || Settled(setup, log)
              || (recovered == Got(false) && state == VerifyingRollback && Last(log, Waited(false)))
    {
      hide Valid, Ended, Writes, WrittenNames, Answers, Matches, Follows, Due, CanRollBack, Fits, Verified, RolledBack;
      hide Happened;
      items := [];
      if snapshot.None? {
        return Got(false), items;
      }
      ghost var told, compared, rest := [], [], [];
      RollingBackFollows(setup, log, state, prepared);
      Emit(RollingBack);
      told := [Emitted(sequence, RollingBack)];
      recovered, compared := CompareRestored();
      items := told + compared;
      if recovered != Got(true) {
        return;
      }
      recovered, rest := ConfirmRestored();
      items := told + compared + rest;
      if recovered == Got(true) {
        RolledBackParts(snapshot.value, attempted.Keys, told[0], compared[0], rest);
        assert [told[0]] == told && [compared[0]] == compared;
      }
    }

    method ConfirmRestored() returns (recovered: Answer<bool>, ghost items: Log)
      requires Live() && snapshot.Some? && state == RollingBack && log != [] && log[|log| - 1].ReadBack?
      modifies this`state, this`sequence, this`log
      ensures Valid() && !Ended(log) && log == old(log) + items && (Writes(log) <==> old(Writes(log))) && NoWriteFrom(items, 0)
      ensures state == VerifyingRollback
      ensures recovered == Got(true) ==>
        && |items| > 1 && Tells(items[0], VerifyingRollback) && Verified(snapshot.value, attempted.Keys, items[1..])
      ensures recovered.Raised? ==> recovered.fault != MonitorFault
      ensures Settled(setup, log) || (recovered == Got(false) && Last(log, Waited(false)))
    {
      hide Valid, Ended, Writes, WrittenNames, Answers, Matches, Follows, Due, Fits, Verified, Happened;
      ghost var rest;
      ComparedFollows(setup, log, prepared);
      SettledIsDue(setup, log, Emitted(sequence + 1, VerifyingRollback));
      Emit(VerifyingRollback);
      ghost var verifying := Emitted(sequence, VerifyingRollback);
      recovered, rest := VerifyRestored();
      items := [verifying] + rest;
      assert items[1..] == rest;
      if recovered == Got(true) {
        VerifiedSome(snapshot.value, attempted.Keys, rest);
      }
    }

    /** The bytes are as they were, the printer comes back on them, and they are compared once more. */
    method VerifyRestored() returns (recovered: Answer<bool>, ghost items: Log)
      requires Live() && snapshot.Some? && state == VerifyingRollback
      modifies this`log
      ensures Valid() && !Ended(log) && log == old(log) + items && (Writes(log) <==> old(Writes(log))) && NoWriteFrom(items, 0)
      ensures recovered == Got(true) ==>
        Verified(snapshot.value, attempted.Keys, items)
      ensures recovered.Raised? ==> recovered.fault != MonitorFault
      ensures Settled(setup, log) || (recovered == Got(false) && Last(log, Waited(false)))
    {
      hide Valid, Ended, Writes, WrittenNames, Answers, Matches, Follows, Fits, Verified;
      ghost var read, up, again := [], [], [];
      recovered, read := VerifyRestoredBytes();
      items := read;
      if recovered != Got(true) {
        return if recovered == Raised(Interrupted) then recovered else Got(false), items;
      }
      recovered, up := ReturnOnline();
      items := read + up;
      if recovered != Got(true) {
        return;
      }
      recovered, again := VerifyRestoredBytes();
      items := read + up + again;
      if recovered == Got(true) {
        VerifiedParts(snapshot.value, attempted.Keys, read, up, again);
      } else {
        recovered := if recovered == Raised(Interrupted) then recovered else Got(false);
      }
    }

    /** Moonraker as it needs, then both. */
    method ReturnOnline() returns (up: Answer<bool>, ghost items: Log)
      requires Live() && snapshot.Some? && state == VerifyingRollback && log != [] && log[|log| - 1].ReadBack?
      modifies this`log
      ensures Valid() && !Ended(log) && log == old(log) + items && (Writes(log) <==> old(Writes(log))) && NoWriteFrom(items, 0)
      ensures up == Got(true) ==> Live()
      ensures up == Got(true) ==>
        items == (if Known(snapshot.value, MoonrakerConf) then [MoonrakerRestarted] else []) + [Waited(true), Restarted, Waited(true)]
      ensures up.Raised? ==> up.fault != MonitorFault
      ensures Settled(setup, log) || (up == Got(false) && Last(log, Waited(false)))
    {
      hide Valid, Ended, Writes, WrittenNames, Answers, Follows, Fits;
      ghost var moonraker, back := [], [];
      up, moonraker := RestoreMoonraker();
      items := moonraker;
      if up != Got(true) {
        return;
      }
      up, back := BringBack();
      items := moonraker + back;
      assert up == Got(true) ==> log[|log| - 1] == back[2];
    }

    method RollbackAndFinish(to: State) returns (p: Phase)
      requires Valid() && !Ended(log) && CanRollBack(state) && Caused(setup, log, to)
      requires to == ConfigError || to == FailedUpload || to == FailedFlash
      requires Due(setup, log, Emitted(sequence + 1, RollingBack)) && Due(setup, log, Emitted(sequence + 1, to))
      modifies this`state, this`sequence, this`log
      ensures Ends(p) && !p.Go? && old(log) <= log && (Writes(log) <==> old(Writes(log))) && NoWriteFrom(log, |old(log)|)
      ensures p.Stop? ==> p.state == to
      ensures p.Raise? ==> state in {RollingBack, VerifyingRollback} && p.fault != MonitorFault
    {
      hide Valid, Ended, Writes, WrittenNames, RolledBack, Caused, Answers, Due, Follows, CanRollBack;
      var recovered;
      ghost var items;
      recovered, items := Rollback();
      if recovered.Raised? {
        return Raise(recovered.fault);
      }
      CausedStays(setup, old(log), log, to);
      CausedFollows(setup, log, state, prepared, to);
      Held();
      if snapshot.Some? {
        AfterRollback(setup, log, Emitted(sequence + 1, to));
      } else {
        assert log == old(log);
      }
      p := Finish(to);
    }

    /** The planned files as they are on the printer. */
    method VerifyUploads() returns (ok: Answer<bool>)
      requires Live() && (state == VerifyingUpload || state == VerifyingConfig)
      modifies this`log
      ensures Valid() && !Ended(log) && old(log) <= log && (Writes(log) <==> old(Writes(log)))
      ensures ok.Raised? ==> log == old(log) && ok.fault != MonitorFault
      ensures ok.Got? ==>
        |log| == |old(log)| + 1 && log[|old(log)|].UploadsSeen? && (ok.value <==> setup.UploadsOk(log[|old(log)|].seen))
    {
      hide Valid, Ended, Writes, Answers, Follows;
      var seen: Answer<Store> := AskClient();
      if seen.Raised? {
        return Raised(seen.fault);
      }
      Note(UploadsSeen(seen.value));
      ok := Got(setup.UploadsOk(seen.value));
    }

    /** A wait for the printer after the writes: it is rolled back when it does not come up. */
    method AwaitOne() returns (p: Phase)
      requires Live() && (state == VerifyingConfig || (state == WaitingMoonraker && Writes(log)))
      modifies this`state, this`sequence, this`log
      ensures Ends(p) && old(log) <= log && (Writes(log) <==> old(Writes(log)))
      ensures p.Stop? ==> p.state == ConfigError
      ensures p.Raise? ==> p.fault != MonitorFault && CanRollBack(state)
      ensures p.Go? ==> Live() && log == old(log) + [Waited(true)] && state == old(state)
    {
      hide Valid, Ended, Writes, WrittenNames, Happened, Answers, Follows, Due, Caused, Fits;
      WaitFits(setup, log, state, prepared);
      var up := Wait();
      if up.Raised? {
        return Raise(up.fault);
      }
      if !up.value {
        Held();
        WaitRollsBack(setup, log, sequence + 1);
        p := RollbackAndFinish(ConfigError);
        return;
      }
      p := Go;
    }

    method TellReconciling()
      requires Live() && state == VerifyingUpload && LastUploadsOk(setup, log) && MoonrakerConf in setup.planned
      modifies this`state, this`sequence, this`log
      ensures Live() && state == WaitingMoonraker && (Writes(log) <==> old(Writes(log)))
      ensures |log| == |old(log)| + 2 && old(log) <= log && LastWriteBefore(log, |old(log)|)
    {
      hide Valid, Ended, Writes, Answers, Follows;
      Note(MoonrakerRestarted);
      MoonrakerFollows(setup, log, prepared);
      Emit(WaitingMoonraker);
    }

    /** A written moonraker.conf takes effect only after Moonraker itself was restarted. */
    method ReconcileMoonraker() returns (p: Phase)
      requires Live() && state == VerifyingUpload && LastUploadsOk(setup, log) && setup.planned.Keys <= WrittenNames(log)
      modifies this`state, this`sequence, this`log
      ensures Ends(p) && old(log) <= log && (Writes(log) <==> old(Writes(log)))
      ensures p.Stop? ==> p.state == ConfigError
      ensures p.Raise? ==> p.fault != MonitorFault && CanRollBack(state)
      ensures p.Go? ==> LastWriteBefore(log, |old(log)|) && InForce(setup, log, state)
    {
      hide Valid, Ended, Writes, WrittenNames, Happened, Answers, Follows, Due, Caused;
      p := Go;
      Held();
      if MoonrakerConf in setup.planned {
        var restart: Answer<()> := AskClient();
        if restart.Raised? {
          return Raise(restart.fault);
        }
        TellReconciling();
        p := AwaitOne();
      }
    }

    method RestartKlipper() returns (p: Phase, ghost r: int)
      requires Live() && InForce(setup, log, state)
      modifies this`state, this`sequence, this`log
      ensures Ends(p) && !p.Stop? && old(log) <= log && (Writes(log) <==> old(Writes(log)))
      ensures p.Raise? ==> p.fault != MonitorFault && CanRollBack(state)
      ensures p.Go? ==> LastWriteBefore(log, |old(log)|)
      ensures p.Go? ==> |old(log)| <= r && RestartedAt(setup, log, r) && state == VerifyingConfig
    {
      hide Valid, Ended, Writes, WrittenNames, Happened, Answers, Follows, InForce;
      r := |log|;
      InForceFollows(setup, log, state, prepared);
      if setup.planned != map[] {
        Emit(FirmwareRestarting);
        var restart: Answer<()> := AskClient();
        if restart.Raised? {
          return Raise(restart.fault), 0;
        }
        r := |log|;
        Note(Restarted);
        RestartedFollows(setup, log, prepared);
      }
      Emit(VerifyingConfig);
      p := Go;
    }

    /** After the restart Moonraker, then Klipper must come up. */
    method AwaitRestart() returns (p: Phase)
      requires Live() && state == VerifyingConfig
      modifies this`state, this`sequence, this`log
      ensures Ends(p) && old(log) <= log && (Writes(log) <==> old(Writes(log)))
      ensures p.Stop? ==> p.state == ConfigError
      ensures p.Raise? ==> p.fault != MonitorFault && CanRollBack(state)
      ensures p.Go? ==> log == old(log) + [Waited(true), Waited(true)] && state == VerifyingConfig
    {
      hide Valid, Ended, Writes, WrittenNames, Happened, Answers, Follows, Due, Caused;
      p := AwaitOne();
      if p.Go? {
        p := AwaitOne();
      }
    }

    /** Moonraker and Klipper are restarted as the written files need it, and come up. */
    method Activate() returns (p: Phase, ghost r: int, ghost w: int)
      requires Live() && state == VerifyingUpload && LastUploadsOk(setup, log) && setup.planned.Keys <= WrittenNames(log)
      modifies this`state, this`sequence, this`log
      ensures Ends(p) && old(log) <= log && (Writes(log) <==> old(Writes(log)))
      ensures p.Stop? ==> p.state == ConfigError
      ensures p.Raise? ==> p.fault != MonitorFault && CanRollBack(state)
      ensures p.Go? ==> LastWriteBefore(log, |old(log)|) && state == VerifyingConfig
      ensures p.Go? ==> |old(log)| <= r < w && RestartedAt(setup, log, r) && UpAt(log, w) && w + 2 == |log|
    {
      hide Valid, Ended, Writes, WrittenNames, Happened, Due, InForce, CanRollBack, LastUploadsOk, Follows, Fits, Settled;
      r, w := 0, 0;
      p := ReconcileMoonraker();
      if p.Go? {
        ghost var reconciled := log;
        p, r := RestartKlipper();
        if p.Go? {
          RestartKept(setup, reconciled, log, |old(log)|);
          w := |log|;
          p := AwaitRestart();
        }
      }
    }

    /** The firmware once more, after activation; `f` is where it was seen. */
    method RecheckFirmware() returns (p: Phase, ghost f: int)
      requires Live() && state == VerifyingConfig && log != []
      modifies this`state, this`sequence, this`log
      ensures Ends(p) && old(log) <= log && (Writes(log) <==> old(Writes(log)))
      ensures p.Stop? ==> p.state == FailedFlash
      ensures p.Raise? ==> p.fault != MonitorFault && CanRollBack(state)
      ensures p.Go? ==> state == VerifyingConfig && LastWriteBefore(log, |old(log)|)
      ensures p.Go? ==> |old(log)| - 1 <= f && FirmwareAt(setup, log, f)
    {
      hide Valid, Ended, Writes, WrittenNames, Happened, Answers, Follows, Due, Caused;
      f := |log| - 1;
      p := Go;
      if setup.verifyFirmware {
        var versions: Answer<Versions> := AskClient();
        if versions.Raised? {
          return Raise(versions.fault), f;
        }
        var reported := versions.value;
        f := |log|;
        SettledIsDue(setup, log, FirmwareSeen(reported));
        Note(FirmwareSeen(reported));
        if !setup.FirmwareOk(reported) {
          Held();
          FirmwareRollsBack(setup, log, sequence + 1);
          p := RollbackAndFinish(FailedFlash);
        }
      }
    }

    /** The uploads, on the printer; `u` is where they were seen. */
    method CheckUploads() returns (p: Phase)
      requires Live() && (state == VerifyingUpload || state == VerifyingConfig)
      modifies this`state, this`sequence, this`log
      ensures Ends(p) && old(log) <= log && (Writes(log) <==> old(Writes(log)))
      ensures p.Stop? ==> p.state == FailedUpload
      ensures p.Raise? ==> p.fault != MonitorFault && CanRollBack(state)
      ensures p.Go? ==> |log| == |old(log)| + 1 && state == old(state) && UploadsAt(setup, log, |old(log)|)
    {
      hide Valid, Ended, Writes, WrittenNames, Happened, Answers, Follows, Due, Caused;
      var ok := VerifyUploads();
      if ok.Raised? {
        return Raise(ok.fault);
      }
      if !ok.value {
        UploadsRollBack(setup, log, sequence + 1);
        p := RollbackAndFinish(FailedUpload);
        return;
      }
      p := Go;
    }

    /** The firmware and the uploads once more, after activation. */
    method Recheck(ghost u: int, ghost r: int, ghost w: int) returns (p: Phase)
      requires Live() && state == VerifyingConfig && 0 <= u < r < w && w + 2 == |log|
      requires UploadsAt(setup, log, u) && LastWriteBefore(log, u) && RestartedAt(setup, log, r) && UpAt(log, w)
      modifies this`state, this`sequence, this`log
      ensures Ends(p) && !p.Go? && old(log) <= log && (Writes(log) <==> old(Writes(log)))
      ensures p.Stop? ==> p.state in {Done, FailedFlash, FailedUpload}
      ensures p == Stop(Done) ==> Validated(setup, log)
      ensures p.Raise? ==> p.fault != MonitorFault && CanRollBack(state)
    {
      hide Valid, Ended, Writes, WrittenNames, Happened, Due, CanRollBack, Follows;
      hide UploadsAt, FirmwareAt, RestartedAt, UpAt, LastWriteBefore;
      ghost var f: int;
      p, f := RecheckFirmware();
      if !p.Go? {
        return;
      }
      ghost var seen := log;
      p := CheckUploads();
      if !p.Go? {
        return;
      }
      ghost var checked := log;
      assert Due(setup, log, Emitted(sequence + 1, Done)) by { SettledIsDue(setup, log, Emitted(sequence + 1, Done)); }
      UploadsLast(setup, log, |seen|, prepared);
      p := Finish(Done);
      ValidatedBy(setup, old(log), seen, checked, log, u, r, w, f);
    }

    /** From the last upload on: verification, activation, and verification again. */
    method Confirm() returns (p: Phase)
      requires Live() && state == ApplyingConfig && setup.planned.Keys <= WrittenNames(log) && Happened(log, Checked)
      modifies this`state, this`sequence, this`log
      ensures Ends(p) && !p.Go? && old(log) <= log && (Writes(log) <==> old(Writes(log)))
      ensures p.Stop? ==> p.state in {Done, FailedFlash, FailedUpload, ConfigError}
      ensures p == Stop(Done) ==> Validated(setup, log)
      ensures p.Raise? ==> p.fault != MonitorFault && CanRollBack(state)
    {
      hide Valid, Ended, Writes, Happened, Answers, CanRollBack, Validated;
      Emit(VerifyingUpload);
      p := CheckUploads();
      if !p.Go? {
        return;
      }
      ghost var u, checked := |log| - 1, log;
      NamesStay(old(log), log);
      ghost var r, w: int;
      p, r, w := Activate();
      if p.Go? {
        UploadedStays(setup, checked, log, u);
        p := Recheck(u, r, w);
      }
    }

    /** Everything that happens before a configuration file may be written. */
    method BeforeConfig() returns (p: Phase)
      requires Live() && !started && state == Init && log == [] && !prepared
      modifies this`state, this`sequence, this`log, this`snapshot, this`prepared
      ensures Ends(p)
      ensures p.Stop? ==> p.state in {Cancelled, FailedPrecondition, FailedFlash, Timeout}
      ensures p.Raise? ==> !RollsBack(state)
      ensures p.Go? ==> state == State.FirmwareVerified
    {
      hide Valid, Ended, Writes, Happened, Due, Settled, Follows, Installed;
      p := Prepare();
      if p.Go? {
        p := Install();
        if p.Go? {
          Held();
          p := AwaitFirmware();
        }
      }
    }

    /** The firmware action and the power cycle. */
    method Install() returns (p: Phase)
      requires Live() && !prepared && state == setup.Start() && Happened(log, Vetted)
      modifies this`state, this`sequence, this`log, this`prepared
      ensures Ends(p) && old(log) <= log
      ensures p.Stop? ==> p.state in {Cancelled, FailedPrecondition, FailedFlash}
      ensures p.Raise? ==> !RollsBack(state)
      ensures p.Go? ==> Follows(setup, log, state, prepared, WaitingMoonraker) && state != VerifyingUpload
    {
      hide Valid, Ended, Writes, Happened, Due, Settled, Follows, Installed;
      p := ArmFirst();
      if p.Go? {
        HappenedStays(old(log), log);
        p := Firmware();
        if p.Go? {
          HappenedStays(old(log), log);
          p := PowerCycle();
        }
      }
    }

    /** The body of `run`, up to what it raises. */
    method Transact() returns (p: Phase)
      requires Live() && !started && state == Init && log == [] && !prepared
      modifies this
      ensures Ends(p) && !p.Go?
      ensures p == Stop(Done) ==> Validated(setup, log)
      ensures p.Stop? && p.state in {Cancelled, FailedPrecondition, Timeout, FailedMonitor} ==> !started
      ensures p.Raise? && started ==> p.fault != MonitorFault && CanRollBack(state)
      ensures p.Raise? && !started ==> CanRollBack(state) || !RollsBack(state)
    {
      hide Valid, Ended, Writes, Happened, Due, Settled, Validated, WrittenNames;
      p := BeforeConfig();
      if p.Go? {
        p := Publish();
        if p.Go? {
          p := Confirm();
        }
      }
    }

    /** An interrupt or a cancellation before anything was written. */
    method EndCancelled(fault: Fault)
      requires Valid() && !Ended(log) && !started
      requires (fault == Interrupted || fault == CancelRequested) && Last(log, Fell(fault))
      modifies this`state, this`sequence, this`log
      ensures Valid() && old(log) <= log && (Writes(log) <==> old(Writes(log))) && NoWriteFrom(log, |old(log)|)
      ensures Ended(log) && log[|log| - 1] == Emitted(sequence, Cancelled) && NothingLeft(snapshot, log)
    {
      hide Valid, Ended, Writes, WrittenNames, Due, Follows, Answers, Caused, NothingLeft;
      Held();
      FaultOwes(setup, log, fault, sequence + 1);
      CancelledIsCaused(setup, log);
      CausedFollows(setup, log, state, prepared, Cancelled);
      var p := Finish(Cancelled);
      NothingWritten(snapshot, log);
    }

    /** The answer to an interrupt or a cancellation. */
    method RecoverCancelled(fault: Fault) returns (to: State, ghost again: Option<Fault>)
      requires Valid() && !Ended(log) && (started ==> CanRollBack(state))
      requires (fault == Interrupted || fault == CancelRequested) && Last(log, Fell(fault))
      modifies this`state, this`sequence, this`log
      ensures Valid() && old(log) <= log && (Writes(log) <==> old(Writes(log))) && NoWriteFrom(log, |old(log)|)
      ensures (to == Cancelled || to == ConfigError) && Ended(log) && log[|log| - 1] == Emitted(sequence, to)
      ensures to == Cancelled ==> NothingLeft(snapshot, log)
      ensures EndsAs(fault, started, old(state), to)
    {
      hide Valid, Ended, Writes, WrittenNames, RolledBack, Due, Follows, Answers, CanRollBack, Caused, NothingLeft, Calm;
      again := None;
      if !started {
        EndCancelled(fault);
        return Cancelled, again;
      }
      ghost var start := log;
      FaultOwes(setup, log, fault, sequence + 1);
      CancelledIsCaused(setup, log);
      var recovered;
      ghost var items;
      recovered, items := Rollback();
      again := if recovered.Raised? then Some(recovered.fault) else None;
      to := if recovered == Got(true) then Cancelled else ConfigError;
      assert snapshot.None? ==> log == start;
      FinishRollback(to, start, items);
      Held();
      if to == Cancelled {
        LeftAfter(snapshot, start, items, start + items, log, attempted.Keys);
      }
    }

    /** The end of a run whose rollback was done. */
    method FinishRollback(to: State, ghost start: Log, ghost items: Log)
      requires Valid() && !Ended(log) && (to == Cancelled || to == ConfigError) && log == start + items && Caused(setup, start, to)
      requires || Settled(setup, log) || (to == ConfigError && state == VerifyingRollback && Last(log, Waited(false)))
               || Due(setup, log, Emitted(sequence + 1, to))
      modifies this`state, this`sequence, this`log
      ensures Valid() && Ended(log) && log == start + items + [Emitted(sequence, to)] && (Writes(log) <==> old(Writes(log)))
    {
      hide Valid, Ended, Writes, Due, Settled, Follows, Answers, Caused;
      CausedStays(setup, start, log, to);
      CausedFollows(setup, log, state, prepared, to);
      Held();
      if Settled(setup, log) {
        SettledIsDue(setup, log, Emitted(sequence + 1, to));
      } else if to == ConfigError && state == VerifyingRollback && Last(log, Waited(false)) {
        AfterRollback(setup, log, Emitted(sequence + 1, to));
      }
      var p := Finish(to);
    }

    /** The answer to an unexpected error. */
    method RecoverUnexpected() returns (r: Result<State, Fault>, ghost again: Option<Fault>)
      requires Valid() && !Ended(log) && !Terminal(state) && (CanRollBack(state) || !RollsBack(state))
      requires Last(log, Fell(OtherFault))
      modifies this`state, this`sequence, this`log
      ensures Valid() && old(log) <= log && (Writes(log) <==> old(Writes(log))) && NoWriteFrom(log, |old(log)|)
      ensures if !RollsBack(old(state)) then again.None? && r == Success(FailedPrecondition)
              else r == if again == Some(Interrupted) then Failure(Interrupted) else Success(ConfigError)
      ensures r.Success? ==> EndsAs(OtherFault, started, old(state), r.value)
      ensures if r.Success? then Ended(log) && log[|log| - 1] == Emitted(sequence, r.value) else !Ended(log)
    {
      hide Valid, Ended, Writes, WrittenNames, RolledBack, Due, Follows, Answers, CanRollBack, RollsBack, Caused;
      again := None;
      ghost var start, p: Phase := log, Go;
      Held();
      FaultOwes(setup, log, OtherFault, sequence + 1);
      if !RollsBack(state) {
        RefusedFollows(setup, log, state, prepared);
        p := Finish(FailedPrecondition);
        return Success(FailedPrecondition), again;
      }
      CancelledIsCaused(setup, log);
      var recovered;
      ghost var items;
      recovered, items := Rollback();
      again := if recovered.Raised? then Some(recovered.fault) else None;
      if recovered == Raised(Interrupted) {
        return Failure(Interrupted), again;
      }
      assert snapshot.None? ==> log == start;
      FinishRollback(ConfigError, start, items);
      r := Success(ConfigError);
    }

    /**
      The answer to what the body raised.  `again` is what a rollback in answer to it raised: after an
      interrupt or a cancellation all of it is caught, after an unexpected error all but an interrupt.
     */
    method Recover(fault: Fault) returns (r: Result<State, Fault>, ghost again: Option<Fault>)
      requires Valid() && !Ended(log) && !Terminal(state) && (Settled(setup, log) || Due(setup, log, Fell(fault)))
      requires started ==> fault != MonitorFault && CanRollBack(state)
      requires !started ==> CanRollBack(state) || !RollsBack(state)
      modifies this`state, this`sequence, this`log
      ensures Valid() && old(log) <= log && (Writes(log) <==> old(Writes(log))) && NoWriteFrom(log, |old(log)|)
      ensures |old(log)| < |log| && log[|old(log)|] == Fell(fault)
      ensures r.Success? ==> EndsAs(fault, old(started), old(state), r.value)
      ensures r.Success? ==> Ended(log) && log[|log| - 1] == Emitted(sequence, r.value)
      ensures r == Success(Cancelled) ==> NothingLeft(snapshot, log)
      ensures r.Failure? <==> fault == OtherFault && RollsBack(old(state)) && again == Some(Interrupted)
      ensures r.Failure? ==> r.error == Interrupted && !Ended(log)
    {
      hide Valid, Ended, Writes, WrittenNames, NothingLeft, Due, Settled, CanRollBack, RollsBack, Terminal, EndsAs;
      again := None;
      Fall(fault);
      ghost var fallen := log;
      if fault == Interrupted || fault == CancelRequested {
        var to;
        to, again := RecoverCancelled(fault);
        r := Success(to);
      } else if fault == OtherFault {
        r, again := RecoverUnexpected();
      } else {
        r := EndAs(fault);
      }
      NoWriteChain(old(log), fallen, log);
    }

    ghost method Fall(fault: Fault)
      requires Valid() && !Ended(log) && (Settled(setup, log) || Due(setup, log, Fell(fault)))
      modifies this`log
      ensures Valid() && !Ended(log) && (Writes(log) <==> old(Writes(log)))
      ensures log == old(log) + [Fell(fault)] && NoWriteFrom(log, |old(log)|)
    {
      hide Valid, Ended, Writes, Due, Settled, Follows, Fits, Calm;
      if Settled(setup, log) {
        SettledIsDue(setup, log, Fell(fault));
      }
      FellFits(setup, log, state, prepared, fault);
      Note(Fell(fault));
    }

    method EndAs(fault: Fault) returns (r: Result<State, Fault>)
      requires Valid() && !Ended(log) && (fault == MonitorFault || fault == TimedOut) && Last(log, Fell(fault))
      modifies this`state, this`sequence, this`log
      ensures Valid() && old(log) <= log && (Writes(log) <==> old(Writes(log))) && NoWriteFrom(log, |old(log)|)
      ensures r == Success(if fault == MonitorFault then FailedMonitor else Timeout)
      ensures EndsAs(fault, started, old(state), r.value)
      ensures Ended(log) && log[|log| - 1] == Emitted(sequence, r.value)
    {
      hide Valid, Ended, Writes, WrittenNames, Due, Answers, Follows;
      var to := if fault == MonitorFault then FailedMonitor else Timeout;
      FaultOwes(setup, log, fault, sequence + 1);
      FailureFollows(setup, log, state, prepared, to);
      var p := Finish(to);
      r := Success(to);
    }

    /**
      `run`: every trace is safe, the outcome is earned, and it is the one terminal event, which ends the
      trace.  `body` is the trace when the body ended, `raised` what it raised, `again` what a rollback
      in answer to that raised; that answer writes nothing.  There is no terminal event exactly when an
      interrupt from the keyboard hits the rollback that answers an unexpected failure, while a cancellation
      there still ends in CONFIG_ERROR; FAILED_PRECONDITION follows a write exactly when such a failure comes
      in a state that is not answered by a rollback.  An outcome of the firmware action that leaves neither a
      medium nor a flashed board decides the result.
     */
    method Run() returns (r: Result<State, Fault>, ghost body: Log, ghost raised: Option<Fault>, ghost again: Option<Fault>)
      requires Live() && !started && state == Init && log == [] && !prepared
      modifies this
      ensures Safe(setup, log) && sequence == Emissions(log) && body <= log && NoWriteFrom(log, |body|)
      ensures r.Success? ==> Terminal(r.value) && log != [] && log[|log| - 1] == Emitted(Emissions(log), r.value)
      ensures r == Success(Done) ==> Validated(setup, log)
      ensures r == Success(Cancelled) ==> NothingLeft(snapshot, log)
      ensures r.Success? ==> forall i :: 0 <= i < |log| && log[i].Acted? && log[i].outcome !in {Prepared, Flashed} ==>
        r.value == AnswerTo(log[i].outcome)
      ensures Happened(log, Vetted) ==> Publishable(setup, snapshot)
      ensures if raised.Some? then |body| < |log| && log[|body|] == Fell(raised.value) else body == log && again.None?
      ensures raised == Some(MonitorFault) ==> r == Success(FailedMonitor)
      ensures raised == Some(TimedOut) ==> r == Success(Timeout)
      ensures raised in {Some(Interrupted), Some(CancelRequested)} ==>
        r == Success(Cancelled) || (Begun(body) && r == Success(ConfigError))
      ensures Writes(log) ==>
        (r == Success(FailedPrecondition) <==> raised == Some(OtherFault) && Exposed(LastState(body)))
      ensures r.Failure? <==> raised == Some(OtherFault) && RollsBack(LastState(body)) && again == Some(Interrupted)
      ensures raised == Some(OtherFault) && RollsBack(LastState(body)) && again != Some(Interrupted) ==>
        r == Success(ConfigError)
      ensures r.Failure? ==> r.error == Interrupted && !Ended(log)
    {
      hide Safe, Emissions, Told, Begun, WrittenNames, RolledBackAt, Validated, LastState, Happened, Due, Settled, Publishable;
      raised, again := None, None;
      var p := Transact();
      body := log;
      Held();
      if p.Stop? {
        r := Success(p.state);
      } else {
        raised := Some(p.fault);
        r, again := Recover(p.fault);
      }
      if r.Success? {
        forall i | 0 <= i < |log| && log[i].Acted? && log[i].outcome !in {Prepared, Flashed}
          ensures r.value == AnswerTo(log[i].outcome)
        {
          OutcomeIsReported(setup, log, i, r.value);
        }
      }
    }
  }

  // ----- what a safe trace says -----

  /** Once a terminal event is told nothing more is done or told. */
  lemma {:induction false} NothingAfterTheEnd(setup: Setup, t: Log, i: nat, j: nat)
    requires Safe(setup, t) && i < j < |t| && t[i].Emitted? && Terminal(t[i].state)
    ensures t[j].Fell? && LastState(t[..j]) == t[i].state
    decreases j
  {
    hide Follows, Due, Emissions, Fits, Told;
    var before := t[..j];
    assert Earned(setup, before, t[j]);
    assert before[i] == t[i] && Ended(before);
    assert before[..j - 1] == t[..j - 1];
    if j > i + 1 {
      NothingAfterTheEnd(setup, t, i, j - 1);
    }
    assert LastState(before) == t[i].state;
    NothingFits(setup, before, LastState(before), Told(before, MediaPrepared), t[j]);
  }

  lemma NothingFits(setup: Setup, t: Log, now: State, prepared: bool, item: Item)
    requires Terminal(now) && Fits(setup, t, now, prepared, item) && !item.Emitted? && !item.Restored?
    ensures item.Fell?
  {
    hide Happened, Writes, Cycled, WrittenNames;
  }

  /**
    The firmware action decides: after any other outcome than a prepared medium or a flashed board the run
    ends at once, as the outcome says, and neither switches the printer nor writes a file.
   */
  lemma OutcomeDecides(setup: Setup, t: Log, i: nat)
    requires Safe(setup, t) && i + 1 < |t| && t[i].Acted? && t[i].outcome !in {Prepared, Flashed}
    ensures t[i + 1].Emitted?
    ensures t[i].outcome == Failed ==> t[i + 1].state == FailedFlash
    ensures t[i].outcome == OutcomeCancelled ==> t[i + 1].state == Cancelled
    ensures t[i].outcome in {ActionRequired, Unknown} ==> t[i + 1].state == FailedPrecondition
    ensures forall j :: i + 1 < j < |t| ==> t[j].Fell?
  {
    hide Follows, Emissions, Ended, LastState;
    var before := t[..i + 1];
    assert Earned(setup, before, t[i + 1]);
    assert before[|before| - 1] == t[i];
    forall j | i + 1 < j < |t| ensures t[j].Fell? {
      NothingAfterTheEnd(setup, t, i + 1, j);
    }
  }

  /** A refusal, a missing answer or a difference is acted on at once. */
  lemma RefusalsDecide(setup: Setup, t: Log, i: nat)
    requires Safe(setup, t) && i + 1 < |t|
    ensures t[i].Answered? && !t[i].yes && t[i].prompt != IdentityPrompt ==> Tells(t[i + 1], Cancelled)
    ensures t[i] == Waited(false) ==>
      t[i + 1].Emitted? && t[i + 1].state in {Timeout, RollingBack, ConfigError, FailedUpload, FailedFlash}
    ensures t[i] == Waited(false) && !Writes(t[..i + 1])
            && LastState(t[..i + 1]) in {WaitingMoonraker, WaitingKlipperReady, WaitingMcuRegistration} ==>
      Tells(t[i + 1], Timeout)
    ensures t[i].FirmwareSeen? && !setup.FirmwareOk(t[i].reported) ==> RollsBackOr(t[i + 1], FailedFlash)
    ensures t[i].UploadsSeen? && !setup.UploadsOk(t[i].seen) ==> RollsBackOr(t[i + 1], FailedUpload)
    ensures t[i].Found? && !t[i].same ==> t[i + 1] == Fell(OtherFault)
  {
    hide Follows, Emissions, Ended, LastState, Writes;
    var before := t[..i + 1];
    assert Earned(setup, before, t[i + 1]);
    assert before[|before| - 1] == t[i];
  }

  /** In a safe trace the events are numbered without a gap, and nothing is told after the terminal one. */
  lemma {:induction false} EventsAreNumbered(setup: Setup, t: Log, i: nat, j: nat)
    requires Safe(setup, t) && i < j < |t| && t[i].Emitted? && t[j].Emitted?
    requires forall k :: i < k < j ==> !t[k].Emitted?
    ensures t[j].number == t[i].number + 1 && !Terminal(t[i].state)
  {
    hide Follows, Due;
    assert Earned(setup, t[..i], t[i]) && Earned(setup, t[..j], t[j]);
    assert t[..j][i] == t[i];
    CountBetween(t, i, j);
  }

  lemma {:induction false} CountBetween(t: Log, i: nat, j: nat)
    requires i < j <= |t| && t[i].Emitted? && forall k :: i < k < j ==> !t[k].Emitted?
    ensures Emissions(t[..j]) == Emissions(t[..i]) + 1
    decreases j - i
  {
    assert t[..j][..j - 1] == t[..j - 1];
    if j > i + 1 {
      CountBetween(t, i, j - 1);
    }
  }

  ghost predicate FirmwarePassed(setup: Setup, t: Log) {
    exists i :: 0 <= i < |t| && t[i].FirmwareSeen? && setup.FirmwareOk(t[i].reported)
  }

  /** The board was seen to go away, and afterwards to come back. */
  ghost predicate Returned(t: Log) {
    exists a, b :: a < b && At(t, a, Absent) && At(t, b, Present)
  }

  lemma SafePrefix(setup: Setup, t: Log, n: nat)
    requires Safe(setup, t) && n <= |t|
    ensures Safe(setup, t[..n])
  {
    hide Earned;
    forall i | 0 <= i < n ensures Earned(setup, t[..n][..i], t[..n][i]) {
      assert t[..n][..i] == t[..i];
    }
  }

  /** Where the last state was told, and what that rested on. */
  lemma {:induction false} ToldAt(setup: Setup, t: Log) returns (k: nat)
    requires Safe(setup, t) && LastState(t) != Init
    ensures k < |t| && Safe(setup, t[..k]) && t[k].Emitted? && t[k].state == LastState(t)
    ensures Follows(setup, t[..k], LastState(t[..k]), Told(t[..k], MediaPrepared), LastState(t))
    ensures LastState(t) != MediaPrepared ==> (Told(t[..k], MediaPrepared) <==> Told(t, MediaPrepared))
    decreases |t|
  {
    hide Follows, Due, Emissions, Ended, Told, Fits;
    var item, before := t[|t| - 1], t[..|t| - 1];
    assert Earned(setup, before, item);
    assert t == before + [item];
    SafePrefix(setup, t, |t| - 1);
    ToldSnoc(before, item, MediaPrepared);
    if item.Emitted? {
      k := |t| - 1;
    } else {
      k := ToldAt(setup, before);
      assert before[..k] == t[..k];
    }
  }

  /** The way from the first wait to the configuration. */
  predicate Booting(s: State) {
    s in {MoonrakerOnline, WaitingKlipperReady, KlipperReady, WaitingMcuRegistration, McuRegistered, VerifyingFirmware,
          State.FirmwareVerified, ApplyingConfig}
  }

  lemma {:induction false} BeforeBooting(setup: Setup, t: Log) returns (k: nat)
    requires Safe(setup, t) && Booting(LastState(t))
    ensures k <= |t| && Safe(setup, t[..k]) && LastState(t[..k]) != VerifyingUpload
    ensures Follows(setup, t[..k], LastState(t[..k]), Told(t[..k], MediaPrepared), WaitingMoonraker)
    ensures Told(t[..k], MediaPrepared) <==> Told(t, MediaPrepared)
    decreases |t|
  {
    hide Told, Safe, LastState, Installed, Happened;
    var j := ToldAt(setup, t);
    var before := t[..j];
    if LastState(t) == MoonrakerOnline {
      k := ToldAt(setup, before);
      assert before[..k] == t[..k];
      if LastState(t[..k]) == VerifyingUpload {
        WroteBeforeRestart(setup, t[..k], before);
      }
    } else {
      k := BeforeBooting(setup, before);
      assert before[..k] == t[..k];
    }
  }

  lemma WroteBeforeRestart(setup: Setup, t: Log, more: Log)
    requires Safe(setup, t) && LastState(t) == VerifyingUpload && MoonrakerConf in setup.planned && t <= more
    ensures Writes(more)
  {
    hide Told, Safe, LastState, Happened;
    var u := ToldAt(setup, t);
    assert MoonrakerConf in WrittenNames(t[..u]);
    WroteBefore(more, t[..u]);
  }

  lemma WroteBefore(t: Log, prefix: Log)
    requires WrittenNames(prefix) != {} && prefix <= t
    ensures Writes(t)
  {
    var n :| n in WrittenNames(prefix);
    var i :| 0 <= i < |prefix| && prefix[i].Wrote? && prefix[i].name == n;
    assert t[i] == prefix[i];
  }

  /** A prepared medium was installed through a whole power cycle. */
  lemma CycledBeforeFlashing(setup: Setup, t: Log)
    requires Safe(setup, t) && LastState(t) == Flashing && Told(t, MediaPrepared)
    ensures Cycled(setup, t) && Happened(t, Absent)
  {
    hide Told, Safe, LastState, Installed, Cycled;
    var k := ToldAt(setup, t);
    assert LastState(t[..k]) == AwaitingBootloader;
    var j := ToldAt(setup, t[..k]);
    assert t[..k][..j] == t[..j];
    CycledStays(setup, t[..j], t);
    CycleRemoves(setup, t);
  }

  lemma CycleRemoves(setup: Setup, t: Log)
    requires Cycled(setup, t)
    ensures Happened(t, Absent)
  {
    if setup.powerOff {
      var c, o, a, m :| c < o < a < m && At(t, c, Answered(PowerCyclePrompt, true)) && At(t, o, PowerOff)
                        && At(t, a, Absent) && At(t, m, Answered(MediaPrompt, true));
    } else {
      var m, a :| m < a && At(t, a, Absent) && At(t, m, Answered(setup.ManualPrompt(), true));
    }
  }

  lemma RemovedBeforeReturn(setup: Setup, t: Log)
    requires Safe(setup, t)
    requires LastState(t) in {AwaitingReenumeration, AwaitingMcuConfirmation, McuIdentityConfirmed}
    ensures Happened(t, Absent) && (Told(t, MediaPrepared) ==> Cycled(setup, t))
    decreases |t|
  {
    hide Told, Safe, LastState, Installed, Cycled, Happened;
    var k := ToldAt(setup, t);
    var before := t[..k];
    HappenedStays(before, t);
    if LastState(t) != AwaitingReenumeration {
      RemovedBeforeReturn(setup, before);
    } else if Told(t, MediaPrepared) {
      CycledBeforeFlashing(setup, before);
    } else {
      var j := ToldAt(setup, before);
      assert Happened(before[..j], Absent) by { LastHappened(before[..j], Absent); }
      HappenedStays(before[..j], before);
    }
    if Told(t, MediaPrepared) {
      CycledStays(setup, before, t);
    }
  }

  lemma LastHappened(t: Log, item: Item)
    requires Last(t, item)
    ensures Happened(t, item)
  {
  }

  lemma ReturnedWith(setup: Setup, t: Log)
    requires Safe(setup, t) && LastState(t) == McuPresent
    ensures Returned(t) && Happened(t, Absent) && (Told(t, MediaPrepared) ==> Cycled(setup, t))
  {
    hide Told, Safe, LastState, Installed, Cycled;
    var k := ToldAt(setup, t);
    var before := t[..k];
    var b := |before| - 1;
    assert before == before[..b] + [Present];
    SnocState(setup, before, Present);
    RemovedBeforeReturn(setup, before[..b]);
    var a :| At(before[..b], a, Absent);
    assert At(t, a, Absent) && At(t, b, Present);
    if Told(t, MediaPrepared) {
      CycledStays(setup, before[..b], t);
    }
  }

  lemma SnocState(setup: Setup, t: Log, item: Item)
    requires Safe(setup, t) && t != [] && t[|t| - 1] == item && !item.Emitted?
    ensures Safe(setup, t[..|t| - 1]) && LastState(t[..|t| - 1]) == LastState(t)
    ensures Told(t[..|t| - 1], MediaPrepared) <==> Told(t, MediaPrepared)
  {
    hide Earned;
    SafePrefix(setup, t, |t| - 1);
    assert t == t[..|t| - 1] + [item];
    ToldSnoc(t[..|t| - 1], item, MediaPrepared);
  }

  /** The board is watched only with the firmware in place. */
  lemma InstalledBeforeRemoval(setup: Setup, t: Log)
    requires Safe(setup, t) && Happened(t, Absent)
    ensures Installed(setup, t)
  {
    hide Told, LastState, Due, Emissions, Ended, Installed, Follows;
    var i :| At(t, i, Absent);
    assert Earned(setup, t[..i], t[i]);
    SafePrefix(setup, t, i);
    var before := t[..i];
    var k := ToldAt(setup, before);
    DisconnectInstalled(setup, before[..k], LastState(before[..k]), Told(before[..k], MediaPrepared));
    InstalledStays(setup, before[..k], t);
  }

  lemma DisconnectInstalled(setup: Setup, t: Log, prev: State, prepared: bool)
    requires Follows(setup, t, prev, prepared, AwaitingDisconnect)
    ensures Installed(setup, t)
  {
    hide Installed;
  }

  lemma InstalledStays(setup: Setup, t: Log, more: Log)
    requires Installed(setup, t) && t <= more
    ensures Installed(setup, more)
  {
    HappenedStays(t, more);
  }

  /** What must lie behind a run that touches the configuration. */
  ghost predicate Cleared(setup: Setup, t: Log) {
    && Installed(setup, t)
    && (setup.verifyFirmware ==> FirmwarePassed(setup, t))
    && (setup.monitor ==> Returned(t) && (Told(t, MediaPrepared) ==> Cycled(setup, t)))
    && (!setup.monitor ==> !Told(t, MediaPrepared))
  }

  lemma FirmwareBefore(setup: Setup, t: Log)
    requires Safe(setup, t) && LastState(t) == ApplyingConfig && setup.verifyFirmware
    ensures FirmwarePassed(setup, t)
  {
    hide Told, Safe, LastState;
    var k := ToldAt(setup, t);
    var j := ToldAt(setup, t[..k]);
    assert t[..k][..j] == t[..j];
    assert LastFirmwareOk(setup, t[..j]);
    assert t[j - 1] == t[..j][j - 1];
  }

  lemma ReturnedStays(t: Log, more: Log)
    requires Returned(t) && t <= more
    ensures Returned(more)
  {
    var a, b :| a < b && At(t, a, Absent) && At(t, b, Present);
    assert At(more, a, Absent) && At(more, b, Present);
  }

  lemma ClearedForConfig(setup: Setup, t: Log)
    requires Safe(setup, t) && LastState(t) == ApplyingConfig
    ensures Cleared(setup, t)
  {
    hide Told, Safe, LastState, Installed, Cycled, Happened, Returned, FirmwarePassed;
    if setup.verifyFirmware {
      FirmwareBefore(setup, t);
    }
    var k := BeforeBooting(setup, t);
    var before := t[..k];
    if setup.monitor {
      ReturnedWith(setup, before);
      InstalledBeforeRemoval(setup, before);
      ReturnedStays(before, t);
      if Told(t, MediaPrepared) {
        CycledStays(setup, before, t);
      }
    }
    InstalledStays(setup, before, t);
  }

  /**
    Nothing is written before its time: every write can be conditioned on the backup, the firmware action
    left a medium or a flashed board, the board went away and came back (through the confirmed power cycle
    when there is a medium), the firmware is the one that was built and the last check has passed.  The file
    was just found as in the backup, and the root file comes after all others.
   */
  lemma WritesAreEarned(setup: Setup, t: Log, i: nat)
    requires Safe(setup, t) && i < |t| && t[i].Wrote?
    ensures Cleared(setup, t[..i]) && Happened(t[..i], Checked) && t[i].name in setup.planned
    ensures i > 0 && t[i - 1] == Found(t[i].name, true)
    ensures t[i].name == Root ==> setup.planned.Keys - {Root} <= WrittenNames(t[..i])
  {
    hide Told, LastState, Due, Cleared, WrittenNames;
    var before := t[..i];
    assert Earned(setup, before, t[i]);
    SafePrefix(setup, t, i);
    ClearedForConfig(setup, before);
    SafePrefix(setup, t, i - 1);
    assert before[i - 1] == t[i - 1] && before[..i - 1] == t[..i - 1];
    assert Earned(setup, t[..i - 1], t[i - 1]);
    HappenedStays(t[..i - 1], before);
  }

  /** Power is cut only after a yes and for a medium, restored only after removal and a yes, and no file is restored. */
  lemma SafeMeans(setup: Setup, t: Log, i: nat)
    requires Safe(setup, t) && i < |t|
    ensures t[i] == PowerOff ==> i > 0 && t[i - 1] == Answered(PowerCyclePrompt, true)
    ensures t[i] == PowerOff || t[i] == PowerOn ==>
      (setup.action == NoAction && setup.alreadyCopied) || exists k :: 0 <= k < i && t[k] == Acted(Prepared)
    ensures t[i] == PowerOn ==>
      exists a, m :: 0 <= a < i && 0 <= m < i && t[a] == Absent && t[m].Answered? && t[m].yes && (setup.powerOff ==> a < m)
    ensures !t[i].Restored?
  {
    hide Told, LastState, Due, Emissions, Ended, Fits;
    var before := t[..i];
    assert Earned(setup, before, t[i]);
    if t[i] == PowerOff || t[i] == PowerOn {
      PowerFits(setup, before, LastState(before), Told(before, MediaPrepared), t[i]);
      PreparedByAction(setup, t, i);
    }
    if t[i] == PowerOff {
      assert t[i - 1] == before[i - 1];
    }
    if t[i] == PowerOn {
      CycleMeans(setup, before);
      var a, m :| 0 <= a < i && 0 <= m < i && before[a] == Absent && before[m].Answered? && before[m].yes
                  && (setup.powerOff ==> a < m);
      assert t[a] == before[a] && t[m] == before[m];
    }
  }

  lemma PowerFits(setup: Setup, t: Log, now: State, prepared: bool, item: Item)
    requires Fits(setup, t, now, prepared, item)
    ensures item == PowerOff ==> prepared && Last(t, Answered(PowerCyclePrompt, true))
    ensures item == PowerOn ==> prepared && Cycled(setup, t)
  {
    hide Cycled;
  }

  lemma CycleMeans(setup: Setup, t: Log)
    requires Cycled(setup, t)
    ensures exists a, m :: 0 <= a < |t| && 0 <= m < |t| && t[a] == Absent && t[m].Answered? && t[m].yes && (setup.powerOff ==> a < m)
  {
    if setup.powerOff {
      var c, o, a, m :| c < o < a < m && At(t, c, Answered(PowerCyclePrompt, true)) && At(t, o, PowerOff)
                        && At(t, a, Absent) && At(t, m, Answered(MediaPrompt, true));
      assert t[a] == Absent && t[m].Answered?;
    } else {
      var m, a :| m < a && At(t, a, Absent) && At(t, m, Answered(setup.ManualPrompt(), true));
      assert t[a] == Absent && t[m].Answered?;
    }
  }

  lemma PreparedByAction(setup: Setup, t: Log, i: nat)
    requires Safe(setup, t) && i <= |t| && Told(t[..i], MediaPrepared)
    ensures (setup.action == NoAction && setup.alreadyCopied) || exists k :: 0 <= k < i && t[k] == Acted(Prepared)
  {
    hide LastState, Due, Emissions, Ended;
    var before := t[..i];
    var m :| 0 <= m < |before| && before[m].Emitted? && before[m].state == MediaPrepared;
    assert Earned(setup, t[..m], t[m]) && t[m] == before[m];
    if setup.action != NoAction {
      assert t[m - 1] == t[..m][m - 1];
    }
  }

  /** What a run reports after an outcome that it cannot go on from. */
  lemma OutcomeIsReported(setup: Setup, t: Log, i: nat, s: State)
    requires Safe(setup, t) && i < |t| && t[i].Acted? && t[i].outcome !in {Prepared, Flashed}
    requires Tells(t[|t| - 1], s)
    ensures s == AnswerTo(t[i].outcome)
  {
    hide Safe;
    OutcomeDecides(setup, t, i);
  }

  // ----- runs that end badly -----

  /** A run without loader, monitor and firmware action, up to where the configuration is checked. */
  const BOOTED: Log := [Vetted, Emitted(1, WaitingMoonraker), Waited(true), Emitted(2, MoonrakerOnline),
                        Emitted(3, WaitingKlipperReady), Waited(true), Emitted(4, KlipperReady),
                        Emitted(5, WaitingMcuRegistration), Waited(true), Emitted(6, McuRegistered),
                        Emitted(7, VerifyingFirmware), Emitted(8, State.FirmwareVerified), Emitted(9, ApplyingConfig), Checked]

  const UPLOADED: Log := BOOTED + [Found(MoonrakerConf, true), Wrote(MoonrakerConf), Emitted(10, VerifyingUpload),
                                   UploadsSeen(map[MoonrakerConf := []])]

  const EXPOSED_RUN: Log := UPLOADED + [MoonrakerRestarted, Emitted(11, WaitingMoonraker), Fell(OtherFault),
                                        Emitted(12, FailedPrecondition)]

  const UNENDED_RUN: Log := UPLOADED + [Fell(OtherFault), Emitted(11, RollingBack)]

  /** An installation of moonraker.conf and nothing else. */
  predicate Plain(setup: Setup) {
    && !setup.verifyFirmware && !setup.loader && !setup.monitor && !setup.monitorFirst && setup.action == NoAction
    && !setup.alreadyCopied && setup.planned == map[MoonrakerConf := []]
  }

  /** A safe trace whose last state is `s`, told as number `n`. */
  ghost predicate Reaches(setup: Setup, t: Log, s: State, n: nat) {
    && Safe(setup, t) && LastState(t) == s && Emissions(t) == n && !Ended(t) && !Told(t, MediaPrepared)
    && Happened(t, Vetted) && Settled(setup, t)
  }

  lemma Tell(setup: Setup, t: Log, s: State, n: nat, next: State)
    requires Reaches(setup, t, s, n) && Follows(setup, t, s, false, next) && next != MediaPrepared && !Terminal(next)
    ensures Reaches(setup, t + [Emitted(n + 1, next)], next, n + 1)
    ensures Writes(t + [Emitted(n + 1, next)]) <==> Writes(t)
    ensures WrittenNames(t + [Emitted(n + 1, next)]) == WrittenNames(t)
  {
    hide Safe, Told, LastState, Emissions, Ended, Follows, Happened, Writes, WrittenNames, Answers;
    var item := Emitted(n + 1, next);
    assert Earned(setup, t, item);
    SafeSnoc(setup, t, item);
    WrittenSnoc(t, item);
    ToldSnoc(t, item, MediaPrepared);
    HappenedStays(t, t + [item]);
  }

  lemma Do(setup: Setup, t: Log, s: State, n: nat, item: Item)
    requires Reaches(setup, t, s, n) && Fits(setup, t, s, false, item) && !item.Emitted? && !item.Restored?
    ensures Safe(setup, t + [item]) && Emissions(t + [item]) == n && LastState(t + [item]) == s && !Ended(t + [item])
    ensures Calm(setup, item) ==> Reaches(setup, t + [item], s, n)
    ensures Writes(t + [item]) <==> Writes(t) || item.Wrote?
    ensures WrittenNames(t + [item]) == WrittenNames(t) + if item.Wrote? then {item.name} else {}
  {
    hide Safe, Told, LastState, Emissions, Ended, Fits, Happened, Writes, WrittenNames, Answers;
    assert Earned(setup, t, item);
    SafeSnoc(setup, t, item);
    WrittenSnoc(t, item);
    ToldSnoc(t, item, MediaPrepared);
    HappenedStays(t, t + [item]);
  }

  lemma Vets(setup: Setup)
    requires Plain(setup)
    ensures Reaches(setup, [Vetted], Init, 0) && !Writes([Vetted]) && Installed(setup, [Vetted])
  {
    hide Answers;
    assert Earned(setup, [], Vetted);
    assert [Vetted][..0] == [];
    assert Safe(setup, [Vetted]);
    assert Emissions([]) == 0 && [Vetted][..|[Vetted]| - 1] == [];
    assert At([Vetted], 0, Vetted);
  }

  /** A bounded wait that ends well. */
  lemma Boots(setup: Setup, t: Log, s: State, n: nat, waiting: State)
    requires Reaches(setup, t, s, n) && !Writes(t) && Follows(setup, t, s, false, waiting) && Awaited(waiting) != Init
    ensures var more := t + [Emitted(n + 1, waiting), Waited(true), Emitted(n + 2, Awaited(waiting))];
      Reaches(setup, more, Awaited(waiting), n + 2) && !Writes(more)
  {
    hide Safe, Told, LastState, Emissions, Ended, Happened, Writes, WrittenNames, Answers, Follows;
    var told := t + [Emitted(n + 1, waiting)];
    Tell(setup, t, s, n, waiting);
    var waited := told + [Waited(true)];
    Do(setup, told, waiting, n + 1, Waited(true));
    Reached(setup, waited, waiting, false);
    Tell(setup, waited, waiting, n + 1, Awaited(waiting));
    assert waited + [Emitted(n + 2, Awaited(waiting))]
        == t + [Emitted(n + 1, waiting), Waited(true), Emitted(n + 2, Awaited(waiting))];
  }

  lemma BootedIsSafe(setup: Setup)
    requires Plain(setup)
    ensures Reaches(setup, BOOTED, ApplyingConfig, 9) && !Writes(BOOTED)
  {
    hide Reaches, Writes, Follows;
    Vets(setup);
    var t0: Log := [Vetted];
    FirstWait(setup, t0);
    Boots(setup, t0, Init, 0, WaitingMoonraker);
    var t1 := t0 + [Emitted(1, WaitingMoonraker), Waited(true), Emitted(2, MoonrakerOnline)];
    Forward(setup, t1, MoonrakerOnline, false, WaitingKlipperReady);
    Boots(setup, t1, MoonrakerOnline, 2, WaitingKlipperReady);
    var t2 := t1 + [Emitted(3, WaitingKlipperReady), Waited(true), Emitted(4, KlipperReady)];
    Forward(setup, t2, KlipperReady, false, WaitingMcuRegistration);
    Boots(setup, t2, KlipperReady, 4, WaitingMcuRegistration);
    var t3 := t2 + [Emitted(5, WaitingMcuRegistration), Waited(true), Emitted(6, McuRegistered)];
    VerifiedIsSafe(setup, t3);
    assert BOOTED == t3 + [Emitted(7, VerifyingFirmware), Emitted(8, State.FirmwareVerified), Emitted(9, ApplyingConfig), Checked];
  }

  lemma FirstWait(setup: Setup, t: Log)
    requires Plain(setup) && Installed(setup, t)
    ensures Follows(setup, t, Init, false, WaitingMoonraker)
  {
    hide Installed;
  }

  lemma CheckedFits(setup: Setup, t: Log)
    requires !Writes(t)
    ensures Fits(setup, t, ApplyingConfig, false, Checked)
  {
  }

  lemma WroteFits(setup: Setup, t: Log)
    requires Plain(setup) && Last(t, Found(MoonrakerConf, true))
    ensures Fits(setup, t, ApplyingConfig, false, Wrote(MoonrakerConf))
  {
  }

  lemma VerifiedIsSafe(setup: Setup, t: Log)
    requires Plain(setup) && Reaches(setup, t, McuRegistered, 6) && !Writes(t)
    ensures var more := t + [Emitted(7, VerifyingFirmware), Emitted(8, State.FirmwareVerified), Emitted(9, ApplyingConfig), Checked];
      Reaches(setup, more, ApplyingConfig, 9) && !Writes(more)
  {
    hide Reaches, Writes, WrittenNames, Follows, Fits;
    Forward(setup, t, McuRegistered, false, VerifyingFirmware);
    Tell(setup, t, McuRegistered, 6, VerifyingFirmware);
    var t1 := t + [Emitted(7, VerifyingFirmware)];
    FirmwareFollows(setup, t1, false);
    Tell(setup, t1, VerifyingFirmware, 7, State.FirmwareVerified);
    var t2 := t1 + [Emitted(8, State.FirmwareVerified)];
    Forward(setup, t2, State.FirmwareVerified, false, ApplyingConfig);
    Tell(setup, t2, State.FirmwareVerified, 8, ApplyingConfig);
    var t3 := t2 + [Emitted(9, ApplyingConfig)];
    CheckedFits(setup, t3);
    Do(setup, t3, ApplyingConfig, 9, Checked);
    assert t3 + [Checked] == t + [Emitted(7, VerifyingFirmware), Emitted(8, State.FirmwareVerified), Emitted(9, ApplyingConfig), Checked];
  }

  lemma WrittenIsSafe(setup: Setup, t: Log)
    requires Plain(setup) && Reaches(setup, t, ApplyingConfig, 9) && Happened(t, Checked)
    ensures var more := t + [Found(MoonrakerConf, true), Wrote(MoonrakerConf)];
      && Reaches(setup, more, ApplyingConfig, 9) && Writes(more) && MoonrakerConf in WrittenNames(more) && Happened(more, Checked)
  {
    hide Reaches, Writes, WrittenNames, Happened, Fits;
    FoundFits(setup, t, false, MoonrakerConf);
    var found := t + [Found(MoonrakerConf, true)];
    Do(setup, t, ApplyingConfig, 9, Found(MoonrakerConf, true));
    WroteFits(setup, found);
    Do(setup, found, ApplyingConfig, 9, Wrote(MoonrakerConf));
    assert found + [Wrote(MoonrakerConf)] == t + [Found(MoonrakerConf, true), Wrote(MoonrakerConf)];
    HappenedStays(t, found + [Wrote(MoonrakerConf)]);
  }

  lemma UploadedIsSafe(setup: Setup)
    requires Plain(setup)
    ensures Reaches(setup, UPLOADED, VerifyingUpload, 10) && Writes(UPLOADED) && LastUploadsOk(setup, UPLOADED)
  {
    hide Reaches, Writes, WrittenNames, Follows, Happened, Fits;
    BootedIsSafe(setup);
    LastHappened(BOOTED, Checked);
    WrittenIsSafe(setup, BOOTED);
    var wrote := BOOTED + [Found(MoonrakerConf, true), Wrote(MoonrakerConf)];
    AllWritten(setup, wrote);
    Tell(setup, wrote, ApplyingConfig, 9, VerifyingUpload);
    var told := wrote + [Emitted(10, VerifyingUpload)];
    SeenFits(setup, told);
    Do(setup, told, VerifyingUpload, 10, UploadsSeen(map[MoonrakerConf := []]));
    assert UPLOADED == told + [UploadsSeen(map[MoonrakerConf := []])];
  }

  lemma SeenFits(setup: Setup, t: Log)
    ensures Fits(setup, t, VerifyingUpload, false, UploadsSeen(map[MoonrakerConf := []]))
  {
  }

  lemma AllWritten(setup: Setup, t: Log)
    requires Plain(setup) && MoonrakerConf in WrittenNames(t) && Happened(t, Checked)
    ensures Follows(setup, t, ApplyingConfig, false, VerifyingUpload)
  {
    hide WrittenNames, Happened;
  }

  /** A trace that `Run` allows: FAILED_PRECONDITION while the written file is not seen restored. */
  lemma FailedPreconditionAfterWrite(setup: Setup, snapshot: Option<Snapshot>)
    requires Plain(setup)
    ensures var body := EXPOSED_RUN[..20];
      && Safe(setup, EXPOSED_RUN) && Writes(EXPOSED_RUN) && !NothingLeft(snapshot, EXPOSED_RUN)
      && Exposed(LastState(body)) && !Ended(body)
      && EXPOSED_RUN == body + [Fell(OtherFault), Emitted(Emissions(EXPOSED_RUN), FailedPrecondition)]
  {
    hide Safe, Told, LastState, Emissions, Ended, Happened, Writes, WrittenNames, Follows, Answers;
    UploadedIsSafe(setup);
    var t1, t2 := UPLOADED + [MoonrakerRestarted], UPLOADED + [MoonrakerRestarted, Emitted(11, WaitingMoonraker)];
    Do(setup, UPLOADED, VerifyingUpload, 10, MoonrakerRestarted);
    MoonrakerFollows(setup, t1, false);
    Tell(setup, t1, VerifyingUpload, 10, WaitingMoonraker);
    assert t2 == t1 + [Emitted(11, WaitingMoonraker)] && EXPOSED_RUN[..20] == t2;
    Do(setup, t2, WaitingMoonraker, 11, Fell(OtherFault));
    var fallen := t2 + [Fell(OtherFault)];
    FaultOwes(setup, fallen, OtherFault, 12);
    RefusedFollows(setup, fallen, WaitingMoonraker, Told(fallen, MediaPrepared));
    assert EXPOSED_RUN == fallen + [Emitted(12, FailedPrecondition)];
    assert Earned(setup, fallen, Emitted(12, FailedPrecondition));
    SafeSnoc(setup, fallen, Emitted(12, FailedPrecondition));
    WrittenSnoc(fallen, Emitted(12, FailedPrecondition));
    NothingReadBack(snapshot, EXPOSED_RUN);
  }

  /** A trace that `Run` allows: no terminal event after a write, the rollback having been interrupted. */
  lemma NoTerminalEventAfterWrite(setup: Setup, snapshot: Option<Snapshot>)
    requires Plain(setup)
    ensures var body := UNENDED_RUN[..18];
      && Safe(setup, UNENDED_RUN) && Writes(UNENDED_RUN) && !NothingLeft(snapshot, UNENDED_RUN)
      && !Ended(UNENDED_RUN) && RollsBack(LastState(body))
      && UNENDED_RUN == body + [Fell(OtherFault), Emitted(11, RollingBack)]
  {
    hide Safe, Told, LastState, Emissions, Ended, Happened, Writes, WrittenNames, Follows, Answers;
    UploadedIsSafe(setup);
    assert UNENDED_RUN[..18] == UPLOADED;
    Do(setup, UPLOADED, VerifyingUpload, 10, Fell(OtherFault));
    var fallen := UPLOADED + [Fell(OtherFault)];
    FaultOwes(setup, fallen, OtherFault, 11);
    RollingBackFollows(setup, fallen, VerifyingUpload, Told(fallen, MediaPrepared));
    assert UNENDED_RUN == fallen + [Emitted(11, RollingBack)];
    assert Earned(setup, fallen, Emitted(11, RollingBack));
    SafeSnoc(setup, fallen, Emitted(11, RollingBack));
    WrittenSnoc(fallen, Emitted(11, RollingBack));
    NothingReadBack(snapshot, UNENDED_RUN);
  }

  lemma NothingReadBack(snapshot: Option<Snapshot>, t: Log)
    requires Writes(t) && forall i :: 0 <= i < |t| ==> !t[i].ReadBack?
    ensures !NothingLeft(snapshot, t)
  {
    if NothingLeft(snapshot, t) {
      ReadBefore(snapshot, t);
    }
  }

  lemma ReadBefore(snapshot: Option<Snapshot>, t: Log)
    requires Writes(t) && NothingLeft(snapshot, t)
    ensures exists i :: 0 <= i < |t| && t[i].ReadBack?
  {
    var from, to :| RolledBackAt(snapshot.value, t, from, to);
    assert t[from..to][1] == t[from + 1];
  }
}

/**
  The monitor that latches removal and return of one board while the operator power-cycles it.

  Events arrive on a second thread, between any two reads of the waiting loop; one event is handled
  as a whole.  The latches are modelled as a value, `Latches`, that the class `PresenceMonitor` keeps in its fields.
 */
module McuMonitor {
  import opened Prelude
  import opened McuIdentity

  /** A udev event with the identity it was resolved to. */
  datatype Event = Removed(candidate: Identity) | Added(candidate: Identity) | Unrelated

  datatype Latches = Latches(absent: bool, present: bool, ambiguous: bool, mismatch: bool,
                             reconnected: Option<Identity>,
                             pendingIdentity: Option<Identity>, pendingAssessed: Option<Identity>)

  datatype Baseline = Baseline(identity: Identity, policy: Policy) {
    predicate InSlot(candidate: Identity) {
      identity.Matches(candidate) || identity.OccupiesSameSlot(candidate)
    }

    function Judge(candidate: Identity): Verdict {
      Assess(identity, candidate, policy)
    }
  }

  function OnEvent(b: Baseline, l: Latches, e: Event): Latches {
    match e
    case Unrelated => l
    case Removed(candidate) => if b.InSlot(candidate) then l.(absent := true) else l
    case Added(candidate) =>
      if !l.absent then l
      else match b.Judge(candidate)
        case MATCH => l.(reconnected := Some(candidate), present := true)
        case AMBIGUOUS => l.(pendingIdentity := Some(candidate), pendingAssessed := Some(candidate), ambiguous := true)
        case MISMATCH => l.(mismatch := true)
        case TRANSIENT => l
        case UNRELATED => l
  }

  function OnEvents(b: Baseline, l: Latches, events: seq<Event>): Latches {
    if events == [] then l else OnEvent(b, OnEvents(b, l, events[..|events| - 1]), events[|events| - 1])
  }

  const ARMED := Latches(false, false, false, false, None, None, None)

  datatype Outcome = Waiting | Returned(identity: Identity) | Mismatched | Undecided | Cancelled | TimedOut

  /** The operator's answer to a doubtful identity; no resolver may be installed at all. */
  datatype Resolver = NoResolver | Resolver(answer: Identity -> bool)

  /** The events that arrive before each step of one turn of the waiting loop, and how the turn ends. */
  datatype Turn = Turn(start: seq<Event>, present: seq<Event>, ambiguous: seq<Event>, torn: seq<Event>,
                       clearing: seq<Event>, asking: seq<Event>, pause: seq<Event>, cancel: bool, expired: bool)

  /**
    The operator was asked about `assessed`; the identity taken as confirmed was read one step
    later, after the events `between`.
   */
  datatype Confirmed = Confirmed(assessed: Identity, between: seq<Event>, taken: Identity)

  datatype Wait = Wait(latches: Latches, seen: seq<Event>, confirmed: Option<Confirmed>, outcome: Outcome)

  function Receives(b: Baseline, w: Wait, events: seq<Event>): Wait {
    w.(latches := OnEvents(b, w.latches, events), seen := w.seen + events)
  }

  /** The question about a doubtful identity. */
  function Ask(b: Baseline, r: Resolver, w: Wait, t: Turn): Wait {
    var assessed := w.latches.pendingAssessed;
    var torn := Receives(b, w, t.torn);
    var taken := torn.latches.pendingIdentity;
    var clearing := Receives(b, torn, t.clearing);
    var cleared := clearing.(latches := clearing.latches.(ambiguous := false));
    if assessed.None? || taken.None? || r.NoResolver? then cleared.(outcome := Undecided)
    else
      var answered := Receives(b, cleared, t.asking);
      if !r.answer(assessed.value) then answered.(outcome := Cancelled)
      else answered.(latches := answered.latches.(reconnected := taken, present := true),
                     confirmed := Some(Confirmed(assessed.value, t.torn, taken.value)))
  }

  function Pause(b: Baseline, w: Wait, t: Turn): Wait {
    var paused := Receives(b, w, t.pause);
    if paused.latches.present && paused.latches.reconnected.Some? then
      paused.(outcome := Returned(paused.latches.reconnected.value))
    else if t.cancel then paused.(outcome := Cancelled)
    else if t.expired then paused.(outcome := TimedOut)
    else paused
  }

  function OneTurn(b: Baseline, r: Resolver, w: Wait, t: Turn): Wait {
    var start := Receives(b, w, t.start);
    if start.latches.mismatch then start.(outcome := Mismatched)
    else
      var present := Receives(b, start, t.present);
      if present.latches.present && present.latches.reconnected.Some? then
        present.(outcome := Returned(present.latches.reconnected.value))
      else
        var ambiguous := Receives(b, present, t.ambiguous);
        var asked := if ambiguous.latches.ambiguous then Ask(b, r, ambiguous, t) else ambiguous;
        if asked.outcome != Waiting then asked else Pause(b, asked, t)
  }

  /** The waiting loop over a schedule of turns; `Waiting` when the schedule ends first. */
  function Waits(b: Baseline, r: Resolver, w: Wait, turns: seq<Turn>): Wait
    decreases |turns|
  {
    if turns == [] || w.outcome != Waiting then w else Waits(b, r, OneTurn(b, r, w, turns[0]), turns[1..])
  }

  /** Arming: `early` are the events before the second reading took effect, which found the board gone or not. */
  function Arms(b: Baseline, early: seq<Event>, gone: bool): Wait {
    var started := Receives(b, Wait(ARMED, [], None, Waiting), early);
    started.(latches := started.latches.(absent := started.latches.absent || gone))
  }

  class PresenceMonitor {
    const baseline: Baseline
    const resolver: Resolver
    var absent: bool
    var present: bool
    var ambiguous: bool
    var mismatch: bool
    var reconnected: Option<Identity>
    var ambiguousIdentity: Option<Identity>
    var ambiguousAssessment: Option<Identity>
    ghost var seen: seq<Event>
    ghost var confirmed: Option<Confirmed>

    ghost function View(outcome: Outcome): Wait
      reads this
    {
      Wait(Latches(absent, present, ambiguous, mismatch, reconnected, ambiguousIdentity, ambiguousAssessment),
           seen, confirmed, outcome)
    }

    /** Arming: the second reading closes the race with the start of the event source. */
    constructor Arm(b: Baseline, r: Resolver, early: seq<Event>, gone: bool)
      ensures baseline == b && resolver == r && View(Waiting) == Arms(b, early, gone)
    {
      baseline, resolver := b, r;
      absent, present, ambiguous, mismatch := false, false, false, false;
      reconnected, ambiguousIdentity, ambiguousAssessment := None, None, None;
      seen, confirmed := [], None;
      new;
      Receive(early);
      absent := absent || gone;
    }

    method Receive(events: seq<Event>)
      modifies this
      ensures View(Waiting) == Receives(baseline, old(View(Waiting)), events)
    {
      for i := 0 to |events|
        invariant View(Waiting) == Receives(baseline, old(View(Waiting)), events[..i])
      {
        assert events[..i + 1][..i] == events[..i];
        var e := events[i];
        if e.Removed? && baseline.InSlot(e.candidate) {
          absent := true;
        } else if e.Added? && absent {
          var verdict := baseline.Judge(e.candidate);
          if verdict == MATCH {
            reconnected := Some(e.candidate);
            present := true;
          } else if verdict == AMBIGUOUS {
            ambiguousIdentity := Some(e.candidate);
            ambiguousAssessment := Some(e.candidate);
            ambiguous := true;
          } else if verdict == MISMATCH {
            mismatch := true;
          }
        }
        seen := seen + [e];
      }
      assert events[..|events|] == events;
    }

    method WaitForPresent(turns: seq<Turn>) returns (outcome: Outcome)
      modifies this
      ensures View(outcome) == Waits(baseline, resolver, old(View(Waiting)), turns)
    {
      for i := 0 to |turns|
        invariant Waits(baseline, resolver, View(Waiting), turns[i..])
          == Waits(baseline, resolver, old(View(Waiting)), turns)
      {
        ghost var w := View(Waiting);
        assert turns[i..][0] == turns[i] && turns[i..][1..] == turns[i + 1..];
        outcome := OneWait(turns[i]);
        if outcome != Waiting {
          return;
        }
      }
      outcome := Waiting;
    }

    method OneWait(t: Turn) returns (outcome: Outcome)
      modifies this
      ensures View(outcome) == OneTurn(baseline, resolver, old(View(Waiting)), t)
    {
      hide Receives, Ask;
      Receive(t.start);
      if mismatch {
        return Mismatched;
      }
      Receive(t.present);
      if present && reconnected.Some? {
        return Returned(reconnected.value);
      }
      Receive(t.ambiguous);
      if ambiguous {
        outcome := AskOperator(t);
        if outcome != Waiting {
          return;
        }
      }
      Receive(t.pause);
      if present && reconnected.Some? {
        return Returned(reconnected.value);
      }
      outcome := if t.cancel then Cancelled else if t.expired then TimedOut else Waiting;
    }

    method AskOperator(t: Turn) returns (outcome: Outcome)
      modifies this
      ensures View(outcome) == Ask(baseline, resolver, old(View(Waiting)), t)
    {
      hide Receives;
      var assessment := ambiguousAssessment;
      Receive(t.torn);
      var candidate := ambiguousIdentity;
      Receive(t.clearing);
      ambiguous := false;
      if assessment.None? || candidate.None? || resolver.NoResolver? {
        return Undecided;
      }
      Receive(t.asking);
      if !resolver.answer(assessment.value) {
        return Cancelled;
      }
      reconnected := candidate;
      present := true;
      confirmed := Some(Confirmed(assessment.value, t.torn, candidate.value));
      outcome := Waiting;
    }
  }

  // ----- ordered removal and return -----

  /** How many events had arrived when the second reading of the arming found the board gone. */
  type Gone = Option<nat>

  function GoneAt(early: seq<Event>, gone: bool): Gone {
    if gone then Some(|early|) else None
  }

  /** The board was found gone, or its slot was seen to empty, before event `j`. */
  ghost predicate AbsentBefore(b: Baseline, gone: Gone, seen: seq<Event>, j: int) {
    (gone.Some? && gone.value <= j) || exists i :: 0 <= i < j <= |seen| && seen[i].Removed? && b.InSlot(seen[i].candidate)
  }

  /** The device appeared after the absence and was judged so. */
  ghost predicate Judged(b: Baseline, gone: Gone, seen: seq<Event>, id: Identity, verdict: Verdict) {
    b.Judge(id) == verdict
    && exists j :: 0 <= j < |seen| && seen[j] == Added(id) && AbsentBefore(b, gone, seen, j)
  }

  ghost predicate Earned(b: Baseline, r: Resolver, gone: Gone, w: Wait, id: Identity) {
    || Judged(b, gone, w.seen, id, MATCH)
    || (&& w.confirmed.Some? && w.confirmed.value.taken == id
        && r.Resolver? && r.answer(w.confirmed.value.assessed)
        && Judged(b, gone, w.seen, w.confirmed.value.assessed, AMBIGUOUS)
        && Judged(b, gone, w.seen, id, AMBIGUOUS)
        && id == LastDoubtful(b, w.confirmed.value.between, w.confirmed.value.assessed))
  }

  /** The last doubtful device among some events, or else the one before them. */
  function LastDoubtful(b: Baseline, events: seq<Event>, before: Identity): Identity {
    if events == [] then before
    else
      var e := events[|events| - 1];
      if e.Added? && b.Judge(e.candidate) == AMBIGUOUS then e.candidate
      else LastDoubtful(b, events[..|events| - 1], before)
  }

  ghost predicate LatchesOk(b: Baseline, gone: Gone, w: Wait) {
    && (w.latches.absent ==> AbsentBefore(b, gone, w.seen, |w.seen|))
    && w.latches.pendingIdentity == w.latches.pendingAssessed
    && (w.latches.ambiguous ==> w.latches.pendingIdentity.Some?)
    && (w.latches.pendingIdentity.Some? ==>
          w.latches.absent && Judged(b, gone, w.seen, w.latches.pendingIdentity.value, AMBIGUOUS))
  }

  ghost predicate Inv(b: Baseline, r: Resolver, gone: Gone, w: Wait) {
    && LatchesOk(b, gone, w)
    && (w.latches.present ==> w.latches.reconnected.Some? && Earned(b, r, gone, w, w.latches.reconnected.value))
    && (w.outcome.Returned? ==> Earned(b, r, gone, w, w.outcome.identity))
  }

  lemma AbsentStays(b: Baseline, gone: Gone, seen: seq<Event>, j: int, e: Event)
    requires AbsentBefore(b, gone, seen, j)
    ensures AbsentBefore(b, gone, seen + [e], j)
    ensures j == |seen| ==> AbsentBefore(b, gone, seen + [e], j + 1)
  {
    if !(gone.Some? && gone.value <= j) {
      var i :| 0 <= i < j <= |seen| && seen[i].Removed? && b.InSlot(seen[i].candidate);
      assert (seen + [e])[i] == seen[i];
    }
  }

  lemma JudgedStays(b: Baseline, gone: Gone, seen: seq<Event>, e: Event, id: Identity, verdict: Verdict)
    requires Judged(b, gone, seen, id, verdict)
    ensures Judged(b, gone, seen + [e], id, verdict)
  {
    var j :| 0 <= j < |seen| && seen[j] == Added(id) && AbsentBefore(b, gone, seen, j);
    AbsentStays(b, gone, seen, j, e);
    assert (seen + [e])[j] == Added(id);
  }

  lemma EarnedStays(b: Baseline, r: Resolver, gone: Gone, w: Wait, more: Wait, e: Event, id: Identity)
    requires Earned(b, r, gone, w, id) && more.seen == w.seen + [e] && more.confirmed == w.confirmed
    ensures Earned(b, r, gone, more, id)
  {
    hide Judged, LastDoubtful;
    if Judged(b, gone, w.seen, id, MATCH) {
      JudgedStays(b, gone, w.seen, e, id, MATCH);
    } else {
      JudgedStays(b, gone, w.seen, e, id, AMBIGUOUS);
      JudgedStays(b, gone, w.seen, e, w.confirmed.value.assessed, AMBIGUOUS);
    }
  }

  function OneEvent(b: Baseline, w: Wait, e: Event): Wait {
    w.(latches := OnEvent(b, w.latches, e), seen := w.seen + [e])
  }

  lemma NewlyJudged(b: Baseline, gone: Gone, seen: seq<Event>, id: Identity)
    requires AbsentBefore(b, gone, seen, |seen|)
    ensures Judged(b, gone, seen + [Added(id)], id, b.Judge(id))
  {
    AbsentStays(b, gone, seen, |seen|, Added(id));
    assert (seen + [Added(id)])[|seen|] == Added(id);
  }

  lemma EventKeepsInv(b: Baseline, r: Resolver, gone: Gone, w: Wait, e: Event)
    requires Inv(b, r, gone, w)
    ensures Inv(b, r, gone, OneEvent(b, w, e))
  {
    hide Judged, Earned, AbsentBefore, Baseline.Judge, Baseline.InSlot;
    var next := OneEvent(b, w, e);
    if w.latches.absent {
      AbsentStays(b, gone, w.seen, |w.seen|, e);
      if e.Added? {
        NewlyJudged(b, gone, w.seen, e.candidate);
        MatchIsEarned(b, r, gone, next, e.candidate);
      }
    } else if next.latches.absent {
      assert next.seen[|w.seen|] == e;
      RemovedIsAbsent(b, gone, w.seen, e);
    }
    if w.latches.pendingIdentity.Some? {
      JudgedStays(b, gone, w.seen, e, w.latches.pendingIdentity.value, AMBIGUOUS);
    }
    if w.latches.present {
      EarnedStays(b, r, gone, w, next, e, w.latches.reconnected.value);
    }
    if w.outcome.Returned? {
      EarnedStays(b, r, gone, w, next, e, w.outcome.identity);
    }
  }

  lemma RemovedIsAbsent(b: Baseline, gone: Gone, seen: seq<Event>, e: Event)
    requires e.Removed? && b.InSlot(e.candidate)
    ensures AbsentBefore(b, gone, seen + [e], |seen| + 1)
  {
    assert (seen + [e])[|seen|] == e;
  }

  lemma MatchIsEarned(b: Baseline, r: Resolver, gone: Gone, w: Wait, id: Identity)
    ensures Judged(b, gone, w.seen, id, MATCH) ==> Earned(b, r, gone, w, id)
  {
  }

  lemma {:induction false} EventsKeepInv(b: Baseline, r: Resolver, gone: Gone, w: Wait, events: seq<Event>)
    requires Inv(b, r, gone, w)
    ensures Inv(b, r, gone, Receives(b, w, events))
    ensures w.latches.absent ==> Receives(b, w, events).latches.absent
    decreases |events|
  {
    hide Inv, Baseline.Judge, Baseline.InSlot;
    if events == [] {
      assert Receives(b, w, events) == w;
    } else {
      var init := events[..|events| - 1];
      EventsKeepInv(b, r, gone, w, init);
      EventKeepsInv(b, r, gone, Receives(b, w, init), events[|events| - 1]);
      assert w.seen + events == w.seen + init + [events[|events| - 1]];
    }
  }

  /** What is read after some events is the last doubtful device among them. */
  lemma {:induction false} PendingIsLastDoubtful(b: Baseline, l: Latches, events: seq<Event>, before: Identity)
    requires l.absent && l.pendingIdentity == Some(before)
    ensures OnEvents(b, l, events).absent
    ensures OnEvents(b, l, events).pendingIdentity == Some(LastDoubtful(b, events, before))
    decreases |events|
  {
    if events != [] {
      PendingIsLastDoubtful(b, l, events[..|events| - 1], before);
    }
  }

  lemma {:induction false} ConfirmationStays(b: Baseline, gone: Gone, seen: seq<Event>, events: seq<Event>,
                                             id: Identity)
    requires Judged(b, gone, seen, id, AMBIGUOUS)
    ensures Judged(b, gone, seen + events, id, AMBIGUOUS)
    decreases |events|
  {
    hide Judged;
    if events == [] {
      assert seen + events == seen;
    } else {
      var init := events[..|events| - 1];
      ConfirmationStays(b, gone, seen, init, id);
      JudgedStays(b, gone, seen + init, events[|events| - 1], id, AMBIGUOUS);
      assert seen + init + [events[|events| - 1]] == seen + events;
    }
  }

  lemma AskKeepsInv(b: Baseline, r: Resolver, gone: Gone, w: Wait, t: Turn)
    requires Inv(b, r, gone, w) && w.outcome == Waiting && w.latches.ambiguous
    ensures Inv(b, r, gone, Ask(b, r, w, t))
  {
    hide Judged, OnEvents, LastDoubtful, AbsentBefore;
    var assessed := w.latches.pendingAssessed.value;
    var torn := Receives(b, w, t.torn);
    EventsKeepInv(b, r, gone, w, t.torn);
    PendingIsLastDoubtful(b, w.latches, t.torn, assessed);
    var taken := torn.latches.pendingIdentity.value;
    var clearing := Receives(b, torn, t.clearing);
    EventsKeepInv(b, r, gone, torn, t.clearing);
    var cleared := clearing.(latches := clearing.latches.(ambiguous := false));
    assert Inv(b, r, gone, cleared);
    var answered := Receives(b, cleared, t.asking);
    EventsKeepInv(b, r, gone, cleared, t.asking);
    ConfirmationStays(b, gone, w.seen, t.torn + t.clearing + t.asking, assessed);
    ConfirmationStays(b, gone, torn.seen, t.clearing + t.asking, taken);
    assert w.seen + (t.torn + t.clearing + t.asking) == answered.seen;
    assert torn.seen + (t.clearing + t.asking) == answered.seen;
  }

  lemma TurnKeepsInv(b: Baseline, r: Resolver, gone: Gone, w: Wait, t: Turn)
    requires Inv(b, r, gone, w) && w.outcome == Waiting
    ensures Inv(b, r, gone, OneTurn(b, r, w, t))
  {
    hide Earned, LatchesOk, Receives, Ask;
    var start := Receives(b, w, t.start);
    EventsKeepInv(b, r, gone, w, t.start);
    var present := Receives(b, start, t.present);
    EventsKeepInv(b, r, gone, start, t.present);
    var ambiguous := Receives(b, present, t.ambiguous);
    EventsKeepInv(b, r, gone, present, t.ambiguous);
    assert start.outcome == present.outcome == ambiguous.outcome == Waiting by {
      ReceivesWaits(b, w, t.start);
      ReceivesWaits(b, start, t.present);
      ReceivesWaits(b, present, t.ambiguous);
    }
    var asked := if ambiguous.latches.ambiguous then Ask(b, r, ambiguous, t) else ambiguous;
    if ambiguous.latches.ambiguous {
      AskKeepsInv(b, r, gone, ambiguous, t);
    }
    if asked.outcome == Waiting {
      EventsKeepInv(b, r, gone, asked, t.pause);
      ReceivesWaits(b, asked, t.pause);
    }
    OutcomeKeepsInv(b, r, gone);
  }

  lemma ReceivesWaits(b: Baseline, w: Wait, events: seq<Event>)
    ensures Receives(b, w, events).outcome == w.outcome
  {
  }

  predicate IsPresent(w: Wait, o: Outcome) {
    o.Returned? ==> w.latches.present && w.latches.reconnected == Some(o.identity)
  }

  /** An outcome keeps the invariant when it returns nothing, or the identity that is present. */
  lemma OutcomeKeepsInv(b: Baseline, r: Resolver, gone: Gone)
    ensures forall w: Wait, o: Outcome :: Inv(b, r, gone, w) && IsPresent(w, o) ==> Inv(b, r, gone, w.(outcome := o))
  {
    forall w: Wait, o: Outcome | Inv(b, r, gone, w) && IsPresent(w, o)
      ensures Inv(b, r, gone, w.(outcome := o))
    {
      var next := w.(outcome := o);
      assert forall id :: Earned(b, r, gone, w, id) <==> Earned(b, r, gone, next, id);
    }
  }

  lemma {:induction false} WaitsKeepInv(b: Baseline, r: Resolver, gone: Gone, w: Wait, turns: seq<Turn>)
    requires Inv(b, r, gone, w)
    ensures Inv(b, r, gone, Waits(b, r, w, turns))
    decreases |turns|
  {
    hide Inv, OneTurn;
    if turns != [] && w.outcome == Waiting {
      TurnKeepsInv(b, r, gone, w, turns[0]);
      WaitsKeepInv(b, r, gone, OneTurn(b, r, w, turns[0]), turns[1..]);
    }
  }

  /**
    Over every event trace and every schedule, an identity is returned only if its absence was
    latched first and it was then judged MATCH, or judged AMBIGUOUS after the operator said yes.
   */
  lemma OrderedRemovalAndReturn(b: Baseline, r: Resolver, early: seq<Event>, gone: bool, turns: seq<Turn>)
    ensures var w := Waits(b, r, Arms(b, early, gone), turns);
      w.outcome.Returned? ==> Earned(b, r, GoneAt(early, gone), w, w.outcome.identity)
  {
    ArmingKeepsInv(b, r, early, gone);
    WaitsKeepInv(b, r, GoneAt(early, gone), Arms(b, early, gone), turns);
  }

  lemma ArmingKeepsInv(b: Baseline, r: Resolver, early: seq<Event>, gone: bool)
    ensures Inv(b, r, GoneAt(early, gone), Arms(b, early, gone))
  {
    var start := Wait(ARMED, [], None, Waiting);
    assert Inv(b, r, GoneAt(early, gone), start);
    EventsKeepInv(b, r, GoneAt(early, gone), start, early);
  }

  /** The device the operator said yes to is the one returned, unless another doubtful one came between the two reads. */
  lemma ConfirmedIsReturned(b: Baseline, r: Resolver, early: seq<Event>, gone: bool, turns: seq<Turn>)
    ensures var w := Waits(b, r, Arms(b, early, gone), turns);
      w.outcome.Returned? && b.Judge(w.outcome.identity) != MATCH ==>
        && w.confirmed.Some? && r.Resolver?
        && (r.answer(w.confirmed.value.assessed) && w.outcome.identity == w.confirmed.value.assessed
            <==> LastDoubtful(b, w.confirmed.value.between, w.confirmed.value.assessed) == w.confirmed.value.assessed)
  {
    OrderedRemovalAndReturn(b, r, early, gone, turns);
  }

  function Doubtful(node: string): Identity {
    Identity("", node, "", "serial", "", "", "", {})
  }

  /** Such a device can come: the operator is asked about one device, and the other is returned. */
  lemma TornConfirmation()
    ensures
      var b := Baseline(Doubtful("ttyACM0"), Policy({}, {}));
      var asked, returned := Doubtful("ttyACM1"), Doubtful("ttyACM2");
      var r := Resolver((id: Identity) => id == asked);
      var turn := Turn([Removed(b.identity), Added(asked)], [], [], [Added(returned)], [], [], [], false, false);
      && Waits(b, r, Arms(b, [], false), [turn]).outcome == Returned(returned)
      && !r.answer(returned)
  {
    var b := Baseline(Doubtful("ttyACM0"), Policy({}, {}));
    var asked, returned := Doubtful("ttyACM1"), Doubtful("ttyACM2");
    var r := Resolver((id: Identity) => id == asked);
    var turn := Turn([Removed(b.identity), Added(asked)], [], [], [Added(returned)], [], [], [], false, false);
    assert b.Judge(asked) == AMBIGUOUS && b.Judge(returned) == AMBIGUOUS;
    TwoEvents(b, ARMED, turn.start[0], turn.start[1]);
    var l := OnEvents(b, ARMED, turn.start);
    assert l.ambiguous && l.pendingAssessed == Some(asked);
    OneEventOnly(b, l, turn.torn[0]);
    var w := OneTurn(b, r, Arms(b, [], false), turn);
    assert w.outcome == Returned(returned);
    assert Waits(b, r, Arms(b, [], false), [turn]) == Waits(b, r, w, [turn][1..]);
  }

  lemma OneEventOnly(b: Baseline, l: Latches, e: Event)
    ensures OnEvents(b, l, [e]) == OnEvent(b, l, e)
  {
    assert [e][..0] == [];
    assert OnEvents(b, l, []) == l;
  }

  lemma TwoEvents(b: Baseline, l: Latches, first: Event, second: Event)
    ensures OnEvents(b, l, [first, second]) == OnEvent(b, OnEvent(b, l, first), second)
  {
    assert [first, second][..1] == [first];
    OneEventOnly(b, l, first);
  }

  /** A removal in the slot of the board is latched, whatever else the reading says; a return counts only after it. */
  lemma {:induction false} RemovalIsLatched(b: Baseline, l: Latches, events: seq<Event>)
    ensures OnEvents(b, l, events).absent <==>
      l.absent || exists i :: 0 <= i < |events| && events[i].Removed? && b.identity.OccupiesSameSlot(events[i].candidate)
    decreases |events|
  {
    if events != [] {
      var n := |events| - 1;
      RemovalIsLatched(b, l, events[..n]);
      if i :| 0 <= i < n && events[..n][i].Removed? && b.identity.OccupiesSameSlot(events[..n][i].candidate) {
        assert events[i] == events[..n][i];
      }
    }
  }

  /** A board of another kind that comes back in the slot ends the wait at its next turn, whatever came before. */
  lemma MismatchEndsTheWait(b: Baseline, r: Resolver, w: Wait, t: Turn, before: seq<Event>, candidate: Identity, after: seq<Event>)
    requires OnEvents(b, w.latches, before).absent && b.Judge(candidate) == MISMATCH
    requires t.start == before + [Added(candidate)] + after
    ensures OneTurn(b, r, w, t).outcome == Mismatched
  {
    EventsAppend(b, w.latches, before + [Added(candidate)], after);
    assert (before + [Added(candidate)])[..|before|] == before;
    MismatchStays(b, OnEvents(b, w.latches, before + [Added(candidate)]), after);
  }

  /** A proven board that comes back is returned at the next look, unless one of another kind was seen. */
  lemma MatchEndsTheWait(b: Baseline, r: Resolver, w: Wait, t: Turn, before: seq<Event>, candidate: Identity)
    requires OnEvents(b, w.latches, before).absent && b.Judge(candidate) == MATCH
    requires t.start == before + [Added(candidate)] && t.present == []
    requires !OnEvents(b, w.latches, before).mismatch
    ensures OneTurn(b, r, w, t).outcome == Returned(candidate)
  {
    assert t.start[..|before|] == before;
  }

  lemma {:induction false} EventsAppend(b: Baseline, l: Latches, first: seq<Event>, more: seq<Event>)
    ensures OnEvents(b, l, first + more) == OnEvents(b, OnEvents(b, l, first), more)
    decreases |more|
  {
    if more == [] {
      assert first + more == first;
    } else {
      assert (first + more)[..|first + more| - 1] == first + more[..|more| - 1];
      EventsAppend(b, l, first, more[..|more| - 1]);
    }
  }

  lemma {:induction false} MismatchStays(b: Baseline, l: Latches, events: seq<Event>)
    requires l.mismatch
    ensures OnEvents(b, l, events).mismatch
    decreases |events|
  {
    if events != [] {
      MismatchStays(b, l, events[..|events| - 1]);
    }
  }

  /** A doubtful board is asked about, and the operator's answer decides. */
  lemma DoubtIsAsked(b: Baseline, r: Resolver, w: Wait, t: Turn, candidate: Identity)
    requires w.outcome == Waiting && b.Judge(candidate) == AMBIGUOUS
    requires w.latches.absent && !w.latches.present && !w.latches.mismatch
    requires t.start == [Added(candidate)] && t.present == t.ambiguous == t.torn == t.clearing == t.asking == t.pause == []
    ensures OneTurn(b, r, w, t).outcome ==
      if r.NoResolver? then Undecided else if r.answer(candidate) then Returned(candidate) else Cancelled
  {
    var start := Receives(b, w, t.start);
    assert t.start[..|t.start| - 1] == [] && t.start[|t.start| - 1] == Added(candidate);
    assert OnEvents(b, w.latches, []) == w.latches;
    assert start.latches == OnEvent(b, w.latches, Added(candidate));
    var asked := Ask(b, r, Receives(b, Receives(b, start, t.present), t.ambiguous), t);
    assert r.Resolver? ==> asked.outcome == if r.answer(candidate) then Waiting else Cancelled;
  }

  /** While nothing was latched the operator ends the wait first, then its deadline. */
  lemma SilenceGoesOn(b: Baseline, r: Resolver, w: Wait, t: Turn)
    requires w.outcome == Waiting && !w.latches.present && !w.latches.ambiguous && !w.latches.mismatch
    requires t.start == t.present == t.ambiguous == t.pause == []
    ensures OneTurn(b, r, w, t).outcome == if t.cancel then Cancelled else if t.expired then TimedOut else Waiting
    ensures OneTurn(b, r, w, t).latches == w.latches
  {
    assert OnEvents(b, w.latches, []) == w.latches;
  }
}

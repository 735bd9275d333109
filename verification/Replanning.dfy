/**
  Planning again over what was planned: the user's tuning is then read back from KACE's own files.

  The lines may come in another order the second time; what is compared is what the files set.
 */
module Replanning {
  import opened Prelude
  import opened ConfigText
  import opened TuningCarryOver
  import opened RootCalibration
  import Managed = RootReconcile

  // ----- one section -----

  predicate Takes(id: SectionId, user: Options, generated: Options, key: string) {
    key in user && (key in NamesOf(id) || key !in generated) && !ForeignControl(id, key, generated)
  }

  /** The options of one section after the tuning of one file was carried over. */
  function Carry(id: SectionId, user: Options, generated: Options): Options {
    map key | key in user.Keys + generated.Keys && (key in generated || Takes(id, user, generated, key)) ::
      if Takes(id, user, generated, key) then user[key] else generated[key]
  }

  /** The hardware file first, then the root, whose values take precedence. */
  function Tuned(id: SectionId, hardware: Options, root: Options, generated: Options): Options {
    Carry(id, root, Carry(id, hardware, generated))
  }

  lemma CarryIsTuning(user: SectionOptions, generated: SectionOptions, id: SectionId)
    requires id in generated
    ensures At(WithTuning(user, generated), id) == Carry(id, At(user, id), generated[id])
  {
    hide ForeignControl, NamesOf, WithTuning;
    var left, right := At(WithTuning(user, generated), id), Carry(id, At(user, id), generated[id]);
    forall key ensures Got(left, key) == Got(right, key) {
      TuningIsCarried(user, generated, id, key);
    }
    SameOptions(left, right);
  }

  lemma SameOptions(a: Options, b: Options)
    requires forall key :: Got(a, key) == Got(b, key)
    ensures a == b
  {
    forall key ensures (key in a <==> key in b) && (key in a ==> a[key] == b[key]) {
      assert Got(a, key) == Got(b, key);
    }
  }

  /** Whose value an option gets: the generated one, the one of the hardware file, or the one of the root. */
  function Pick(foreign: bool, preserved: bool, generated: Option<string>, hardware: Option<string>,
                root: Option<string>): Option<string>
  {
    if foreign then generated
    else if preserved then (if root.Some? then root else if hardware.Some? then hardware else generated)
    else if generated.Some? then generated
    else if hardware.Some? then hardware
    else root
  }

  /** What the planned files set in one section. */
  datatype Outcome = Outcome(hardware: Options, root: Options)

  function Restricted(options: Options, names: set<string>): Options {
    map key | key in options && key in names :: options[key]
  }

  function Divided(names: set<string>, saved: Options, active: Options, tuned: Options): Outcome {
    var rule := Rule(names, saved, active, tuned);
    Outcome(tuned - names, map key | key in tuned && key in names && rule.Retains(key) :: tuned[key])
  }

  /** Beside an include of generated hardware. */
  function PlanSection(id: SectionId, generated: Options, saved: Options, hardware: Options, root: Options): Result<Outcome, ()> {
    var tuned := Tuned(id, hardware, root, generated);
    var names := Names(id, tuned, saved);
    if names.Failure? then Failure(()) else Success(Divided(names.value, saved, Over(hardware, root), tuned))
  }

  /** In the root layout the old hardware file is read and not written. */
  function PlanInline(id: SectionId, generated: Options, saved: Options, hardware: Options, root: Options): Options {
    Tuned(id, hardware, root, generated) - (saved.Keys - Over(hardware, root).Keys)
  }

  /** Planning over its own outcome changes nothing in the section. */
  predicate Stable(id: SectionId, generated: Options, saved: Options, hardware: Options, root: Options) {
    var first := PlanSection(id, generated, saved, hardware, root);
    first.Success? ==> PlanSection(id, generated, saved, first.value.hardware, first.value.root) == first
  }

  predicate StatesControl(id: SectionId, generated: Options) {
    Heater(id) ==> "control" in generated
  }

  /** The control mode is no tuning of the user: where the generated section states it, it stays. */
  lemma ControlStays(id: SectionId, user: Options, generated: Options)
    requires "control" in generated
    ensures Got(Carry(id, user, generated), "control") == Got(generated, "control")
  {
    hide PreservedNames, ForeignControl;
    if id.Named? {
      ControlIsNotPreserved(id.name);
    }
  }

  lemma ControlIsNotPreserved(section: string)
    ensures "control" !in PreservedNames(section)
  {
    hide Fold, StartsWith;
  }

  lemma HeaterIsHeater(id: SectionId)
    ensures id in {Named("extruder"), Named("heater_bed")} ==> Heater(id)
  {
  }

  /** Whether PID values are skipped depends on the control mode alone. */
  lemma SameForeign(id: SectionId, key: string, a: Options, b: Options)
    requires StatesControl(id, a) && (Heater(id) ==> Got(a, "control") == Got(b, "control"))
    ensures ForeignControl(id, key, a) == ForeignControl(id, key, b)
  {
    hide Fold;
    HeaterIsHeater(id);
  }

  lemma TunedAt(id: SectionId, hardware: Options, root: Options, generated: Options, key: string)
    requires StatesControl(id, generated)
    ensures Got(Tuned(id, hardware, root, generated), key) ==
      Pick(ForeignControl(id, key, generated), key in NamesOf(id), Got(generated, key), Got(hardware, key), Got(root, key))
    ensures Heater(id) ==> Got(Tuned(id, hardware, root, generated), "control") == Got(generated, "control")
  {
    hide ForeignControl, NamesOf, Heater;
    var once := Carry(id, hardware, generated);
    if Heater(id) {
      ControlStays(id, hardware, generated);
      ControlStays(id, root, once);
    }
    SameForeign(id, key, generated, once);
  }

  lemma SameNames(id: SectionId, a: Options, b: Options, saved: Options)
    requires Heater(id) ==> Got(a, "control") == Got(b, "control")
    ensures Names(id, a, saved) == Names(id, b, saved)
  {
    hide Heater, StartsWith, Fold;
  }

  /** Where the generated section states the control mode, a second planning changes nothing. */
  lemma StableSection(id: SectionId, generated: Options, saved: Options, hardware: Options, root: Options)
    requires StatesControl(id, generated)
    ensures Stable(id, generated, saved, hardware, root)
  {
    hide Tuned, Names, Heater, ForeignControl, NamesOf;
    var first := PlanSection(id, generated, saved, hardware, root);
    if first.Success? {
      var o := first.value;
      var tuned, again := Tuned(id, hardware, root, generated), Tuned(id, o.hardware, o.root, generated);
      TunedAt(id, hardware, root, generated, "control");
      TunedAt(id, o.hardware, o.root, generated, "control");
      SameNames(id, tuned, again, saved);
      SavedMoves(id, tuned, saved);
      forall key
        ensures Got(tuned, key) == Pick(ForeignControl(id, key, generated), key in NamesOf(id), Got(generated, key),
                                        Got(hardware, key), Got(root, key))
        ensures Got(again, key) == Pick(ForeignControl(id, key, generated), key in NamesOf(id), Got(generated, key),
                                        Got(o.hardware, key), Got(o.root, key))
      {
        TunedAt(id, hardware, root, generated, key);
        TunedAt(id, o.hardware, o.root, generated, key);
      }
      DividedAgain(id, generated, Names(id, tuned, saved).value, saved, hardware, root, tuned, again);
    }
  }

  lemma DividedAgain(id: SectionId, generated: Options, names: set<string>, saved: Options, hardware: Options,
                     root: Options, tuned: Options, again: Options)
    requires saved.Keys <= names
    requires var o := Divided(names, saved, Over(hardware, root), tuned);
      forall key ::
        && Got(tuned, key) == Pick(ForeignControl(id, key, generated), key in NamesOf(id), Got(generated, key),
                                   Got(hardware, key), Got(root, key))
        && Got(again, key) == Pick(ForeignControl(id, key, generated), key in NamesOf(id), Got(generated, key),
                                   Got(o.hardware, key), Got(o.root, key))
    ensures var o := Divided(names, saved, Over(hardware, root), tuned);
      Divided(names, saved, Over(o.hardware, o.root), again) == o
  {
    hide ForeignControl, NamesOf, Pick, Divided;
    var o := Divided(names, saved, Over(hardware, root), tuned);
    var second := Divided(names, saved, Over(o.hardware, o.root), again);
    forall key ensures Got(second.hardware, key) == Got(o.hardware, key) && Got(second.root, key) == Got(o.root, key) {
      KeyStays(ForeignControl(id, key, generated), key in NamesOf(id), generated, names, saved, hardware, root, tuned, again, key);
    }
    SameOptions(second.hardware, o.hardware);
    SameOptions(second.root, o.root);
  }

  lemma KeyStays(foreign: bool, preserved: bool, generated: Options, names: set<string>, saved: Options, hardware: Options,
                 root: Options, tuned: Options, again: Options, key: string)
    requires saved.Keys <= names
    requires var o := Divided(names, saved, Over(hardware, root), tuned);
      && Got(tuned, key) == Pick(foreign, preserved, Got(generated, key), Got(hardware, key), Got(root, key))
      && Got(again, key) == Pick(foreign, preserved, Got(generated, key), Got(o.hardware, key), Got(o.root, key))
    ensures var o := Divided(names, saved, Over(hardware, root), tuned);
      var second := Divided(names, saved, Over(o.hardware, o.root), again);
      Got(second.hardware, key) == Got(o.hardware, key) && Got(second.root, key) == Got(o.root, key)
  {
  }

  lemma SavedMoves(id: SectionId, options: Options, saved: Options)
    requires Names(id, options, saved).Success?
    ensures saved.Keys <= Names(id, options, saved).value
  {
    hide Heater, StartsWith, PidControl;
  }

  const PID_MODE: Options := map["control" := "pid"]
  const WATERMARK_MODE: Options := map["control" := "watermark"]

  /** A heater whose generated section states no control mode: a second planning is refused. */
  lemma UnstatedControlIsUnstable(id: SectionId, generated: Options)
    requires !StatesControl(id, generated)
    ensures PlanSection(id, generated, PID_MODE, PID_MODE, WATERMARK_MODE).Success?
    ensures !Stable(id, generated, PID_MODE, PID_MODE, WATERMARK_MODE)
  {
    hide NamesOf, Heater, StartsWith, Carry, Names;
    var tuned := Tuned(id, PID_MODE, WATERMARK_MODE, generated);
    TakenControl(id, PID_MODE, WATERMARK_MODE, generated);
    PidIsPlanned(id, tuned);
    var o := PlanSection(id, generated, PID_MODE, PID_MODE, WATERMARK_MODE).value;
    assert "control" !in o.hardware && "control" !in o.root;
    TakenControl(id, o.hardware, o.root, generated);
    ControlIsRefused(id, Tuned(id, o.hardware, o.root, generated));
  }

  /** Where the generated section states no control mode, the first file that has one counts. */
  lemma TakenControl(id: SectionId, hardware: Options, root: Options, generated: Options)
    requires "control" !in generated
    ensures Got(Tuned(id, hardware, root, generated), "control") ==
      if "control" in hardware then Got(hardware, "control") else Got(root, "control")
  {
    hide NamesOf, ForeignControl, Carry;
    var once := Carry(id, hardware, generated);
    NoControl(id);
    NotForeign(id, generated);
    NotForeign(id, once);
    CarryAt(id, hardware, generated, "control");
    CarryAt(id, root, once, "control");
  }

  lemma PidIsPlanned(id: SectionId, options: Options)
    requires Got(options, "control") == Some("pid")
    ensures Names(id, options, PID_MODE).Success? && "control" in Names(id, options, PID_MODE).value
  {
    hide Heater, StartsWith, Fold;
    PidFolds();
    assert PidControl(options);
    SavedMoves(id, options, PID_MODE);
    assert "control" in PID_MODE;
  }

  lemma ControlIsRefused(id: SectionId, options: Options)
    requires Heater(id) && "control" !in options
    ensures Names(id, options, PID_MODE).Failure?
  {
    hide Heater, StartsWith;
    assert "control" in PID_MODE.Keys * (PID + {"control"});
  }

  lemma NoControl(id: SectionId)
    ensures "control" !in NamesOf(id)
  {
    if id.Named? {
      ControlIsNotPreserved(id.name);
    }
  }

  lemma NotForeign(id: SectionId, options: Options)
    ensures !ForeignControl(id, "control", options)
  {
    assert "pid_"[0] != "control"[0];
  }

  lemma PidFolds()
    ensures Fold("pid") == "pid"
  {
    assert "pid"[1..] == "id" && "id"[1..] == "d" && "d"[1..] == "";
    assert Fold("d") == "d" && Fold("id") == "id";
  }

  /** The exact condition, whatever the user and Klipper wrote: a heater must state its control mode. */
  lemma StabilityCondition(id: SectionId, generated: Options)
    ensures StatesControl(id, generated) <==> forall saved, hardware, root :: Stable(id, generated, saved, hardware, root)
  {
    hide Stable, StatesControl;
    if StatesControl(id, generated) {
      forall saved, hardware, root ensures Stable(id, generated, saved, hardware, root) {
        StableSection(id, generated, saved, hardware, root);
      }
    } else {
      UnstatedControlIsUnstable(id, generated);
    }
  }

  function PickOne(foreign: bool, preserved: bool, generated: Option<string>, user: Option<string>): Option<string> {
    if foreign then generated
    else if preserved then (if user.Some? then user else generated)
    else if generated.Some? then generated
    else user
  }

  lemma CarryAt(id: SectionId, user: Options, generated: Options, key: string)
    ensures Got(Carry(id, user, generated), key) ==
      PickOne(ForeignControl(id, key, generated), key in NamesOf(id), Got(generated, key), Got(user, key))
  {
    hide ForeignControl, NamesOf;
  }

  /** In the root layout a second planning never changes anything. */
  lemma StableInline(id: SectionId, generated: Options, saved: Options, hardware: Options, root: Options)
    ensures var planned := PlanInline(id, generated, saved, hardware, root);
      PlanInline(id, generated, saved, hardware, planned) == planned
  {
    hide Carry, ForeignControl, NamesOf;
    var once := Carry(id, hardware, generated);
    var planned := PlanInline(id, generated, saved, hardware, root);
    var again := PlanInline(id, generated, saved, hardware, planned);
    forall key ensures Got(again, key) == Got(planned, key) {
      CarryAt(id, root, once, key);
      CarryAt(id, planned, once, key);
      KeyStaysInline(ForeignControl(id, key, once), key in NamesOf(id), once, saved, hardware, root,
                     Carry(id, root, once), Carry(id, planned, once), key);
    }
    SameOptions(again, planned);
  }

  lemma KeyStaysInline(foreign: bool, preserved: bool, once: Options, saved: Options, hardware: Options, root: Options,
                       tuned: Options, again: Options, key: string)
    requires var planned := tuned - (saved.Keys - Over(hardware, root).Keys);
      && Got(tuned, key) == PickOne(foreign, preserved, Got(once, key), Got(root, key))
      && Got(again, key) == PickOne(foreign, preserved, Got(once, key), Got(planned, key))
    ensures var planned := tuned - (saved.Keys - Over(hardware, root).Keys);
      Got(again - (saved.Keys - Over(hardware, planned).Keys), key) == Got(planned, key)
  {
  }

  // ----- the planned files -----

  /** One planning of the root and of what is beside it; `text` is the tuned text without include sections. */
  datatype Job = Job(generated: SectionOptions, saved: SectionOptions, hardware: SectionOptions, root: SectionOptions,
                     text: Text, includes: Text, macros: bool, inline: bool, file: Text, macrosAbsent: bool)
  {
    function Active(): SectionOptions {
      Merge(hardware, root)
    }

    function Plan(): Result<Planned, ()> {
      PlanOf(text, includes, saved, Active(), macros, inline)
    }

    predicate Plans() {
      && OwnText(text, includes) && Plan().Success?
      && Managed.PlanRoot(file, macrosAbsent, Plan().value.plan).Success?
    }

    function Root(): Text
      requires Plans()
    {
      Managed.PlanRoot(file, macrosAbsent, Plan().value.plan).value
    }

    function RootOptions(): SectionOptions
      requires Plans()
    {
      OptionsOf(Managed.Head(Root()))
    }

    function HardwareOptions(): SectionOptions
      requires Plans()
    {
      OptionsOf(Plan().value.hardware)
    }

    /**
      The section occurs once, with the carried tuning, and is written as the generator writes it; no
      setting of the user stands right behind the block that would belong to it.
     */
    predicate Carries(id: SectionId)
      requires Plans()
    {
      && id in generated && Count(text, id) == 1
      && BodyOptions(Body(text, id)) == Tuned(id, At(hardware, id), At(root, id), generated[id])
      && (if inline then
            && OneLine(false, Body(text, id), Removed(saved, Active(), id))
            && forall key :: key in Removed(saved, Active(), id) ==> PlainLines(Body(text, id), key)
          else Tidy(Body(text, id), false))
      && QuietBehind(Managed.Prepared(file, macrosAbsent), Plan().value.plan, id)
    }
  }

  /** Carrying the tuning of both files over, with every carried option tunable, gives that text. */
  lemma CarriedIsTuned(generated: SectionOptions, hardware: SectionOptions, root: SectionOptions, id: SectionId)
    requires id in generated
    ensures At(WithTuning(root, WithTuning(hardware, generated)), id) == Tuned(id, At(hardware, id), At(root, id), generated[id])
  {
    hide Carry;
    CarryIsTuning(hardware, generated, id);
    TuningIsCarried(hardware, generated, id, "");
    CarryIsTuning(root, WithTuning(hardware, generated), id);
  }

  lemma {:induction false} CountedHeader(text: Text, id: SectionId)
    requires Count(text, id) > 0
    ensures id in Managed.HeaderIds(text)
  {
    if id !in Managed.HeaderIds(text) {
      NoneCounted(text, id);
    }
  }

  /** The section in the planned files is what planning the section gives. */
  lemma FilesOfSection(job: Job, id: SectionId)
    requires job.Plans() && job.Carries(id) && !job.inline
    ensures PlanSection(id, job.generated[id], At(job.saved, id), At(job.hardware, id), At(job.root, id))
      == Success(Outcome(At(job.HardwareOptions(), id), At(job.RootOptions(), id)))
  {
    hide Managed.PlanRoot, Managed.Prepared, Managed.Head, Managed.Clean, OptionsOf, Split, QuietBehind, Tuned;
    var saved, active := job.saved, job.Active();
    var split, body := Split(job.text, saved, active).value, Body(job.text, id);
    var rule := RuleOf(id, body, saved, active);
    SplitOne(job.text, saved, active, id);
    AtMerge(job.hardware, job.root, id);
    SectionInRoot(job, id);
    var o := Divided(rule.value.names, At(saved, id), At(active, id), BodyOptions(body));
    forall key
      ensures Got(At(OptionsOf(split.hardware), id), key) == Got(o.hardware, key)
      ensures Got(At(OptionsOf(split.calibration), id), key) == Got(o.root, key)
    {
      TidyDivided(rule.value, body, key);
    }
    SameOptions(At(OptionsOf(split.hardware), id), o.hardware);
    SameOptions(At(OptionsOf(split.calibration), id), o.root);
  }

  lemma SectionInRoot(job: Job, id: SectionId)
    requires job.Plans() && Count(job.text, id) > 0
    requires QuietBehind(Managed.Prepared(job.file, job.macrosAbsent), job.Plan().value.plan, id)
    ensures var plan := job.Plan().value.plan;
      At(job.RootOptions(), id) == At(OptionsOf(InRoot(plan)), id)
  {
    hide OptionsOf, Split, Trimmed, Managed.Prepared, Managed.Head, Managed.Saved, Managed.Clean, Managed.Reconcile,
      Managed.Malformed, QuietBehind, OwnText;
    var plan, existing := job.Plan().value.plan, Managed.Prepared(job.file, job.macrosAbsent);
    PlanIsClean(job.text, job.includes, job.saved, job.Active(), job.macros, job.inline);
    Managed.NotMalformed(existing, plan);
    Managed.SavedTextIsUntouched(job.file, job.macrosAbsent, plan);
    CountedHeader(job.text, id);
    RootSetsQuietly(existing, plan, id);
    LineBefore(Managed.LAYOUT, Managed.Reconcile(existing, plan).value);
    assert [] + Managed.Reconcile(existing, plan).value == Managed.Reconcile(existing, plan).value;
  }

  lemma InlineSection(job: Job, id: SectionId)
    requires job.Plans() && job.Carries(id) && job.inline
    ensures At(job.RootOptions(), id) == PlanInline(id, job.generated[id], At(job.saved, id), At(job.hardware, id), At(job.root, id))
  {
    hide OptionsOf, Trimmed, Managed.PlanRoot, Managed.Prepared, QuietBehind, Tuned;
    var saved, active, body := job.saved, job.Active(), Body(job.text, id);
    var removed := Removed(saved, active, id);
    SectionInRoot(job, id);
    TrimOne(job.text, saved, active, id);
    AtMerge(job.hardware, job.root, id);
    var trimmed := BodyOptions(TrimBody(body, removed));
    forall key ensures Got(trimmed, key) == Got(BodyOptions(body) - removed, key) {
      if key in removed {
        TrimBodySets(removed, body, key);
        NoLineRemains(removed, NOTHING, body, key);
      } else {
        TrimKeepsOthers(NOTHING, NOTHING, false, body, removed);
      }
    }
    SameOptions(trimmed, BodyOptions(body) - removed);
  }

  /**
    Planning again over what was planned, tuning read back included: every generated section sets the
    same in both files as before.  A heater beside an include must state its control mode.
   */
  lemma ReplanningKeepsOptions(first: Job, second: Job, id: SectionId)
    requires first.Plans() && second.Plans() && first.Carries(id) && second.Carries(id)
    requires second.generated == first.generated && second.saved == first.saved && second.inline == first.inline
    requires second.file == first.Root() && second.root == first.RootOptions()
    requires second.hardware == if first.inline then first.hardware else first.HardwareOptions()
    requires first.inline || StatesControl(id, first.generated[id])
    ensures At(second.RootOptions(), id) == At(first.RootOptions(), id)
    ensures !first.inline ==> At(second.HardwareOptions(), id) == At(first.HardwareOptions(), id)
  {
    if first.inline {
      InlineAgain(first, second, id);
    } else {
      FilesAgain(first, second, id);
    }
  }

  lemma InlineAgain(first: Job, second: Job, id: SectionId)
    requires first.Plans() && second.Plans() && first.Carries(id) && second.Carries(id) && first.inline && second.inline
    requires second.generated == first.generated && second.saved == first.saved
    requires second.root == first.RootOptions() && second.hardware == first.hardware
    ensures At(second.RootOptions(), id) == At(first.RootOptions(), id)
  {
    assert id in first.generated;
    hide Job.Plans, Job.Root, Job.RootOptions, Job.Carries, PlanInline;
    InlineSection(first, id);
    InlineSection(second, id);
    StableInline(id, first.generated[id], At(first.saved, id), At(first.hardware, id), At(first.root, id));
  }

  lemma SameOutcome(id: SectionId, generated: Options, saved: Options, hardware: Options, root: Options,
                    first: Outcome, second: Outcome)
    requires StatesControl(id, generated)
    requires PlanSection(id, generated, saved, hardware, root) == Success(first)
    requires PlanSection(id, generated, saved, first.hardware, first.root) == Success(second)
    ensures second == first
  {
    hide PlanSection, StatesControl;
    StableSection(id, generated, saved, hardware, root);
  }

  lemma FilesAgain(first: Job, second: Job, id: SectionId)
    requires first.Plans() && second.Plans() && first.Carries(id) && second.Carries(id) && !first.inline && !second.inline
    requires second.generated == first.generated && second.saved == first.saved
    requires second.root == first.RootOptions() && second.hardware == first.HardwareOptions()
    requires StatesControl(id, first.generated[id])
    ensures At(second.RootOptions(), id) == At(first.RootOptions(), id)
    ensures At(second.HardwareOptions(), id) == At(first.HardwareOptions(), id)
  {
    assert id in first.generated;
    hide Job.Plans, Job.Root, Job.RootOptions, Job.HardwareOptions, Job.Carries, PlanSection, StatesControl, At, OptionsOf;
    FilesOfSection(first, id);
    FilesOfSection(second, id);
    SameOutcome(id, first.generated[id], At(first.saved, id), At(first.hardware, id), At(first.root, id),
                Outcome(At(first.HardwareOptions(), id), At(first.RootOptions(), id)),
                Outcome(At(second.HardwareOptions(), id), At(second.RootOptions(), id)));
  }
}

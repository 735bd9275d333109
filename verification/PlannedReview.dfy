/**
  The review of a planned configuration: the planner's artifacts over the baseline they were planned
  from, expanded strictly.  The text of a file and the file that an include line of it resolves to are
  parameters.
 */
module PlannedReview {
  import opened Prelude
  import opened Transport
  import opened IncludeGraph
  import opened ConfigText
  import opened IncludeExpansion
  import IniReconciler
  import Managed = RootReconcile
  import Tuning = TuningCarryOver

  /** What a line of a file includes: nothing, a path that cannot be reviewed safely, or a file. */
  datatype Reference = NoInclude | Unsafe | To(target: Name)

  datatype Syntax = Syntax(decode: Bytes -> Option<Text>, resolve: (Line, Name) -> Reference) {

    function EntriesIn(text: Text, name: Name): Option<seq<Entry>> {
      if text == [] then Some([])
      else match (resolve(text[0], name), EntriesIn(text[1..], name))
        case (NoInclude, Some(rest)) => Some([Plain(text[0])] + rest)
        case (To(target), Some(rest)) => Some([Directive(target)] + rest)
        case _ => None
    }

    function Read(): Reader {
      (content: Bytes, name: Name) =>
        match decode(content) case None => None case Some(text) => EntriesIn(text, name)
    }

    function Includes(): Includes {
      IncludesOf(Read())
    }

    /** Includes are section headers or stray words, and KACE's own include lines lead to its files. */
    ghost predicate Sound() {
      && (forall line, name :: resolve(line, name) != NoInclude ==> line.Words? || (line.Header? && line.id.Include?))
      && resolve(Managed.IncludeLine(Managed.HARDWARE), Root) == To(Hardware)
      && resolve(Managed.IncludeLine(Managed.MACROS), Root) == To(Macros)
    }

    /** The text of a file that may be absent. */
    function TextOf(content: Option<Bytes>): Option<Text> {
      if content.None? then Some([]) else decode(content.value)
    }
  }

  /** The include sections of the generated configuration, which the planner moves to the root. */
  function IncludeHeaders(text: Text): Text {
    if text == [] then []
    else (if text[0].Header? && text[0].id.Include? then [text[0]] else []) + IncludeHeaders(text[1..])
  }

  function IncludeIds(text: Text): set<SectionId> {
    set line | line in text && line.Header? && line.id.Include? :: line.id
  }

  /** Lines of the generated configuration without its include sections, or headers of its sections. */
  ghost predicate FromGenerated(text: Text, tuned: Text) {
    forall line :: line in text ==>
      line in Managed.StripSections(tuned, IncludeIds(tuned)) || (line.Header? && line.id.Named?)
  }

  /**
    One planning: the generated files, their tuned text, what goes into the root, and the artifacts.
   */
  datatype Planning = Planning(syntax: Syntax, baseline: Contents, hardware: Bytes, macros: Option<Bytes>,
                               tuned: Text, plan: Managed.Plan, artifacts: Files)
  {
    function Seeds(): set<Source>
      requires Root in baseline
    {
      IncludeGraph.Seeds(hardware, macros, baseline[Root])
    }

    /** The generated text, with the user's tuning; its includes are sections of their own. */
    ghost predicate TunedText() {
      && syntax.decode(hardware).Some?
      && Tuning.Headers(tuned) == Tuning.Headers(syntax.decode(hardware).value)
      && (forall line :: line in tuned ==> line in syntax.decode(hardware).value || line.Setting?)
      && (forall line, name :: line in syntax.decode(hardware).value && line.Words? ==> syntax.resolve(line, name) == NoInclude)
    }

    ghost predicate RootArtifact()
      requires CANDIDATES <= baseline.Keys
    {
      var existing := syntax.TextOf(baseline[Root]);
      && existing.Some? && Managed.Clean(plan) && plan.includes == IncludeHeaders(tuned)
      && FromGenerated(plan.generated + plan.calibration, tuned)
      && Root in artifacts && Managed.PlanRoot(existing.value, baseline[LegacyMacros].None?, plan).Success?
      && syntax.decode(artifacts[Root]) == Some(Managed.PlanRoot(existing.value, baseline[LegacyMacros].None?, plan).value)
    }

    ghost predicate OwnArtifacts() {
      && (Hardware in artifacts <==> !plan.inline)
      && (Hardware in artifacts ==>
          syntax.decode(artifacts[Hardware]).Some? && FromGenerated(syntax.decode(artifacts[Hardware]).value, tuned))
      && (Macros in artifacts <==> plan.macros)
      && (Macros in artifacts ==> macros == Some(artifacts[Macros]))
    }

    /** Moonraker's file is planned only where it is, and gains one option. */
    ghost predicate MoonrakerArtifact()
      requires CANDIDATES <= baseline.Keys
    {
      MoonrakerConf in artifacts ==>
        && baseline[MoonrakerConf].Some? && syntax.decode(baseline[MoonrakerConf].value).Some?
        && syntax.decode(artifacts[MoonrakerConf]) ==
           Some(IniReconciler.Ensured(syntax.decode(baseline[MoonrakerConf].value).value, Named("file_manager"),
                                      IniReconciler.WithOption("enable_object_processing", "True")))
    }

    /** `build_managed_config_plan`. */
    ghost predicate Planned() {
      && CANDIDATES <= baseline.Keys && TunedText() && RootArtifact() && OwnArtifacts() && MoonrakerArtifact()
      && artifacts.Keys <= {Root, Hardware, Macros, MoonrakerConf}
    }

    /** The baseline was collected for this planning, and all of it can be reviewed. */
    ghost predicate Collected() {
      && Root in baseline
      && CompleteBaseline(syntax.Includes(), Seeds(), baseline) && Readable(syntax.Includes(), Seeds())
    }

    function Files(): Files {
      ReviewFiles(baseline, artifacts)
    }
  }

  // ----- what the lines of a file include -----

  lemma {:induction false} EntriesOfLines(syntax: Syntax, text: Text, name: Name)
    ensures syntax.EntriesIn(text, name).Some? <==> forall line :: line in text ==> !syntax.resolve(line, name).Unsafe?
    ensures syntax.EntriesIn(text, name).Some? ==> forall t ::
      t in Targets(syntax.EntriesIn(text, name).value) <==> exists line :: line in text && syntax.resolve(line, name) == To(t)
    decreases |text|
  {
    if text != [] {
      EntriesOfLines(syntax, text[1..], name);
      assert forall line :: line in text <==> line == text[0] || line in text[1..];
      if syntax.EntriesIn(text, name).Some? {
        FirstEntry(syntax, text, name);
      }
    }
  }

  lemma FirstEntry(syntax: Syntax, text: Text, name: Name)
    requires text != [] && syntax.EntriesIn(text, name).Some?
    ensures syntax.EntriesIn(text[1..], name).Some?
    ensures forall t :: t in Targets(syntax.EntriesIn(text, name).value) <==>
      syntax.resolve(text[0], name) == To(t) || t in Targets(syntax.EntriesIn(text[1..], name).value)
  {
    var entries := syntax.EntriesIn(text, name).value;
    assert entries == [entries[0]] + entries[1..];
  }

  /** What a file includes, line by line. */
  lemma TargetOfLine(syntax: Syntax, content: Bytes, name: Name, t: Name) returns (line: Line)
    requires syntax.Read()(content, name).Some? && t in Targets(syntax.Read()(content, name).value)
    ensures syntax.decode(content).Some? && line in syntax.decode(content).value && syntax.resolve(line, name) == To(t)
  {
    EntriesOfLines(syntax, syntax.decode(content).value, name);
    line :| line in syntax.decode(content).value && syntax.resolve(line, name) == To(t);
  }

  /** A line of a text that was collected from leads to a file that was read. */
  lemma LineOfSeed(p: Planning, source: Source, line: Line, t: Name)
    requires p.Collected() && source in p.Seeds() && p.syntax.decode(source.1).Some?
    requires line in p.syntax.decode(source.1).value && p.syntax.resolve(line, source.0) == To(t)
    ensures Reachable(p.syntax.Includes(), p.Seeds(), p.baseline, t)
  {
    var inc, text := p.syntax.Includes(), p.syntax.decode(source.1).value;
    EntriesOfLines(p.syntax, text, source.0);
    assert inc(source.1, source.0).Some?;
    assert IncludesName(inc, source, t);
    assert IncludePath(inc, p.Seeds(), p.baseline, [t]) && [t][0] == t;
  }

  // ----- the includes of the artifacts -----

  /** A planned file that the root leads to, or a file that was read because a collected text leads to it. */
  ghost predicate Covered(p: Planning, name: Name)
    requires Root in p.baseline
  {
    (name in p.artifacts && name in {Root, Hardware, Macros}) || Reachable(p.syntax.Includes(), p.Seeds(), p.baseline, name)
  }

  lemma {:induction false} HeadersOnly(text: Text, line: Line)
    ensures line in IncludeHeaders(text) <==> line in text && line.Header? && line.id.Include?
    ensures line in Tuning.Headers(text) <==> line in text && line.Header?
    decreases |text|
  {
    if text != [] {
      HeadersOnly(text[1..], line);
    }
  }

  /** Once its include sections are taken out, the generated configuration includes nothing. */
  lemma NothingGenerated(p: Planning, text: Text, line: Line, name: Name)
    requires p.syntax.Sound() && p.TunedText() && FromGenerated(text, p.tuned) && line in text
    ensures p.syntax.resolve(line, name) == NoInclude
  {
    if line in Managed.StripSections(p.tuned, IncludeIds(p.tuned)) {
      Managed.StripOnlyRemoves(p.tuned, IncludeIds(p.tuned), line);
    }
  }

  /** The lines of the planned root come from the existing one, from the generated text, or are KACE's own. */
  lemma RootLine(p: Planning, line: Line)
    requires p.syntax.Sound() && p.Planned() && line in p.syntax.decode(p.artifacts[Root]).value
    ensures p.syntax.resolve(line, Root) == NoInclude
      || line in p.syntax.TextOf(p.baseline[Root]).value || line in IncludeHeaders(p.tuned)
      || Managed.OwnInclude(p.plan, line)
  {
    hide Managed.PlanRoot, Managed.Clean, Managed.OwnInclude, FromGenerated, IncludeHeaders;
    var existing := p.syntax.TextOf(p.baseline[Root]).value;
    Managed.PlannedRootLines(existing, p.baseline[LegacyMacros].None?, p.plan, line);
    if line in p.plan.generated + p.plan.calibration {
      NothingGenerated(p, p.plan.generated + p.plan.calibration, line, Root);
    }
  }

  /** An include section of the generated configuration leads to a file that was read. */
  lemma GeneratedInclude(p: Planning, line: Line, t: Name)
    requires p.TunedText() && p.Collected() && line in IncludeHeaders(p.tuned) && p.syntax.resolve(line, Root) == To(t)
    ensures Covered(p, t)
  {
    hide Reachable, CompleteBaseline, Readable;
    HeadersOnly(p.tuned, line);
    HeadersOnly(p.syntax.decode(p.hardware).value, line);
    LineOfSeed(p, (Root, p.hardware), line, t);
  }

  /** The root includes what a collected text includes, and KACE's own artifacts. */
  lemma RootIncludes(p: Planning, t: Name)
    requires p.syntax.Sound() && p.Planned() && p.Collected()
    requires t in Targets(EntriesOf(p.syntax.Read(), p.artifacts, Root))
    ensures Covered(p, t)
  {
    hide Reachable, CompleteBaseline, Readable, Managed.PlanRoot, Managed.Clean, FromGenerated, IncludeHeaders;
    var line := TargetOfLine(p.syntax, p.artifacts[Root], Root, t);
    RootLine(p, line);
    if line in p.syntax.TextOf(p.baseline[Root]).value {
      LineOfSeed(p, (Root, p.baseline[Root].value), line, t);
    } else if line in IncludeHeaders(p.tuned) {
      GeneratedInclude(p, line, t);
    }
  }

  /** Moonraker's planned file includes what the file it replaces includes. */
  lemma MoonrakerIncludes(p: Planning, t: Name)
    requires p.syntax.Sound() && p.Planned() && MoonrakerConf in p.artifacts
    requires t in Targets(EntriesOf(p.syntax.Read(), p.artifacts, MoonrakerConf))
    ensures FileIncludes(p.syntax.Includes(), p.baseline, MoonrakerConf, t)
  {
    var before, after := p.syntax.decode(p.baseline[MoonrakerConf].value).value, p.syntax.decode(p.artifacts[MoonrakerConf]).value;
    var line := TargetOfLine(p.syntax, p.artifacts[MoonrakerConf], MoonrakerConf, t);
    EntriesOfLines(p.syntax, after, MoonrakerConf);
    EntriesOfLines(p.syntax, before, MoonrakerConf);
    var wanted := IniReconciler.WithOption("enable_object_processing", "True");
    IniReconciler.OnlyPlainLines(before, Named("file_manager"), wanted, line);
    forall l | l in before ensures l in after {
      IniReconciler.OnlyPlainLines(before, Named("file_manager"), wanted, l);
    }
  }

  // ----- what a strict review can complain of -----

  /** The includes of a planned file are covered. */
  lemma PlannedFileIsCovered(p: Planning, from: Name, to: Name)
    requires p.syntax.Sound() && p.Planned() && p.Collected() && from in p.artifacts && from in {Root, Hardware, Macros}
    requires to in Targets(EntriesOf(p.syntax.Read(), p.artifacts, from))
    ensures Covered(p, to)
  {
    hide Reachable, CompleteBaseline, Readable;
    var line := TargetOfLine(p.syntax, p.artifacts[from], from, to);
    if from == Root {
      RootIncludes(p, to);
    } else if from == Hardware {
      NothingGenerated(p, p.syntax.decode(p.artifacts[Hardware]).value, line, Hardware);
    } else {
      LineOfSeed(p, (Macros, p.artifacts[Macros]), line, to);
    }
  }

  lemma CoveredStep(p: Planning, from: Name, to: Name)
    requires p.syntax.Sound() && p.Planned() && p.Collected() && Covered(p, from)
    requires to in Targets(EntriesOf(p.syntax.Read(), p.Files(), from))
    ensures Covered(p, to)
  {
    hide Reachable, CompleteBaseline, Readable, Targets, FileIncludes, Managed.PlanRoot, Managed.Clean, FromGenerated;
    if from in p.artifacts {
      assert EntriesOf(p.syntax.Read(), p.Files(), from) == EntriesOf(p.syntax.Read(), p.artifacts, from);
      if from == MoonrakerConf {
        MoonrakerIncludes(p, to);
        ReachableStep(p.syntax.Includes(), p.Seeds(), p.baseline, from, to);
      } else {
        PlannedFileIsCovered(p, from, to);
      }
    } else {
      BaselineIncludes(p, from, to);
      ReachableStep(p.syntax.Includes(), p.Seeds(), p.baseline, from, to);
    }
  }

  lemma BaselineIncludes(p: Planning, from: Name, to: Name)
    requires from !in p.artifacts && to in Targets(EntriesOf(p.syntax.Read(), p.Files(), from))
    ensures FileIncludes(p.syntax.Includes(), p.baseline, from, to)
  {
    hide Targets;
    assert Targets([]) == [] by { NoTargets(); }
  }

  lemma NoTargets()
    ensures Targets([]) == []
  {
  }

  lemma {:induction false} ChainIsCovered(p: Planning, path: seq<Name>)
    requires p.syntax.Sound() && p.Planned() && p.Collected()
    requires Chain(p.syntax.Read(), p.Files(), path) && Covered(p, path[0])
    ensures Covered(p, path[|path| - 1])
    decreases |path|
  {
    hide Covered, CompleteBaseline, Readable, Chain, Targets, EntriesOf, FromGenerated, Managed.PlanRoot, Managed.Clean;
    ChainStarts(p.syntax.Read(), p.Files(), path);
    if |path| > 1 {
      var rest := path[1..];
      assert path == [path[0]] + rest;
      LongerChain(p.syntax.Read(), p.Files(), path[0], rest);
      CoveredStep(p, path[0], rest[0]);
      ChainIsCovered(p, rest);
    }
  }

  /** A strict review of a planned configuration complains of a file only when its absence was confirmed. */
  lemma UnreadIsConfirmedAbsent(p: Planning, missing: Name)
    requires p.syntax.Sound() && p.Planned() && p.Collected()
    requires Expand(p.syntax.Read(), p.Files(), true, Root, [], 0) == Unread(missing)
    ensures missing in p.baseline && p.baseline[missing].None?
  {
    hide Expand, Reachable;
    UnreadIsReached(p.syntax.Read(), p.Files(), true, Root, [], 0, missing);
    var path :| Chain(p.syntax.Read(), p.Files(), path) && path[0] == Root && path[|path| - 1] == missing;
    ChainIsCovered(p, path);
  }
}

/**
  The effective configuration: the root file with every include expanded in Klipper's order, and the
  saved values of options that nothing sets.
 */
module IncludeExpansion {
  import opened Prelude
  import opened Transport
  import opened IncludeGraph
  import opened ConfigText

  const MAX_DEPTH := 32

  /** A line of a file, or an include directive with the file it resolves to. */
  datatype Entry = Plain(line: Line) | Directive(target: Name)

  /** The lines of a file; `None` when an include in it cannot be reviewed safely. */
  type Reader = (Bytes, Name) -> Option<seq<Entry>>

  type Files = map<Name, Bytes>

  function Targets(entries: seq<Entry>): seq<Name> {
    if entries == [] then []
    else (if entries[0].Directive? then [entries[0].target] else []) + Targets(entries[1..])
  }

  /** The includes of a file, as the baseline was collected by. */
  function IncludesOf(read: Reader): Includes {
    (content: Bytes, name: Name) =>
      match read(content, name) case None => None case Some(entries) => Some(Targets(entries))
  }

  datatype Expansion =
    | Expanded(text: Text, used: nat)
    | Recursive(name: Name)
    | Unread(name: Name)
    | Refused(name: Name)
    | TooLarge

  /** `expand`: `stack` are the files being expanded, `used` the bytes so far. */
  function Expand(read: Reader, files: Files, strict: bool, name: Name, stack: seq<Name>, used: nat): Expansion
    requires |stack| <= MAX_DEPTH
    decreases MAX_DEPTH - |stack|, 0
  {
    if name in stack || |stack| >= MAX_DEPTH then Recursive(name)
    else if name !in files then (if strict then Unread(name) else Expanded([], used))
    else if used + |files[name]| > MAX_BYTES then TooLarge
    else match read(files[name], name)
      case None => Refused(name)
      case Some(entries) => ExpandEntries(read, files, strict, entries, stack + [name], used + |files[name]|)
  }

  function ExpandEntries(read: Reader, files: Files, strict: bool, entries: seq<Entry>, stack: seq<Name>,
                         used: nat): Expansion
    requires |stack| <= MAX_DEPTH
    decreases MAX_DEPTH - |stack|, |entries|
  {
    if entries == [] then Expanded([], used)
    else
      var first := if entries[0].Plain? then Expanded([entries[0].line], used)
                   else Expand(read, files, strict, entries[0].target, stack, used);
      if !first.Expanded? then first
      else
        var rest := ExpandEntries(read, files, strict, entries[1..], stack, first.used);
        if !rest.Expanded? then rest else Expanded(first.text + rest.text, rest.used)
  }

  // ----- inlining, without limits -----

  function EntriesOf(read: Reader, files: Files, name: Name): seq<Entry> {
    if name in files && read(files[name], name).Some? then read(files[name], name).value else []
  }

  /** Every directive replaced by the text of its file, `depth` files deep. */
  function Inline(read: Reader, files: Files, name: Name, depth: nat): Text
    decreases depth, 0
  {
    if depth == 0 then [] else InlineEntries(read, files, EntriesOf(read, files, name), depth - 1)
  }

  function InlineEntries(read: Reader, files: Files, entries: seq<Entry>, depth: nat): Text
    decreases depth, |entries| + 1
  {
    if entries == [] then []
    else
      var first := if entries[0].Plain? then [entries[0].line] else Inline(read, files, entries[0].target, depth);
      first + InlineEntries(read, files, entries[1..], depth)
  }

  /** The bytes of all files of that text, each as often as it is included. */
  function Weight(read: Reader, files: Files, name: Name, depth: nat): nat
    decreases depth, 0
  {
    if depth == 0 || name !in files then 0
    else |files[name]| + WeightOf(read, files, EntriesOf(read, files, name), depth - 1)
  }

  function WeightOf(read: Reader, files: Files, entries: seq<Entry>, depth: nat): nat
    decreases depth, |entries| + 1
  {
    if entries == [] then 0
    else
      var first := if entries[0].Plain? then 0 else Weight(read, files, entries[0].target, depth);
      first + WeightOf(read, files, entries[1..], depth)
  }

  // ----- chains of includes -----

  /** A file that can be expanded when nothing is wrong further down. */
  predicate Usable(read: Reader, files: Files, strict: bool, name: Name) {
    if name in files then read(files[name], name).Some? else !strict
  }

  ghost predicate Chain(read: Reader, files: Files, path: seq<Name>) {
    path != [] && forall i :: 0 <= i < |path| - 1 ==> path[i + 1] in Targets(EntriesOf(read, files, path[i]))
  }

  ghost predicate Distinct(path: seq<Name>) {
    forall i, j :: 0 <= i < j < |path| ==> path[i] != path[j]
  }

  /** A chain below `stack` that the limits allow and that ends in a usable file. */
  ghost predicate Fine(read: Reader, files: Files, strict: bool, stack: seq<Name>, path: seq<Name>) {
    && path != [] && |stack| + |path| <= MAX_DEPTH && Distinct(path)
    && (forall i :: 0 <= i < |path| ==> path[i] !in stack)
    && Usable(read, files, strict, path[|path| - 1])
  }

  /** All chains from a file on are fine: no include cycle, none too deep, none to a file that is missing. */
  ghost predicate Tame(read: Reader, files: Files, strict: bool, stack: seq<Name>, name: Name) {
    forall path :: Chain(read, files, path) && path != [] && path[0] == name ==> Fine(read, files, strict, stack, path)
  }

  ghost predicate TameAll(read: Reader, files: Files, strict: bool, stack: seq<Name>, entries: seq<Entry>) {
    forall name :: name in Targets(entries) ==> Tame(read, files, strict, stack, name)
  }

  lemma LongerChain(read: Reader, files: Files, name: Name, path: seq<Name>)
    requires path != []
    ensures Chain(read, files, [name] + path) <==>
      Chain(read, files, path) && path[0] in Targets(EntriesOf(read, files, name))
  {
    var longer := [name] + path;
    if Chain(read, files, longer) {
      assert longer[0 + 1] in Targets(EntriesOf(read, files, longer[0]));
      forall i | 0 <= i < |path| - 1 ensures path[i + 1] in Targets(EntriesOf(read, files, path[i])) {
        assert longer[(i + 1) + 1] in Targets(EntriesOf(read, files, longer[i + 1]));
      }
    }
  }

  lemma LongerFine(read: Reader, files: Files, strict: bool, stack: seq<Name>, name: Name, path: seq<Name>)
    requires path != []
    ensures Fine(read, files, strict, stack, [name] + path) <==>
      Fine(read, files, strict, stack + [name], path) && name !in stack
  {
    var longer := [name] + path;
    assert longer[|longer| - 1] == path[|path| - 1];
    if Fine(read, files, strict, stack, longer) {
      assert longer[0] == name;
      forall i, j | 0 <= i < j < |path| ensures path[i] != path[j] {
        assert longer[i + 1] != longer[j + 1];
      }
      forall i | 0 <= i < |path| ensures path[i] !in stack + [name] {
        assert longer[i + 1] !in stack && longer[0] != longer[i + 1];
      }
    }
  }

  lemma ShortFine(read: Reader, files: Files, strict: bool, stack: seq<Name>, name: Name)
    ensures Chain(read, files, [name])
    ensures Fine(read, files, strict, stack, [name]) <==>
      Usable(read, files, strict, name) && name !in stack && |stack| < MAX_DEPTH
  {
    assert Fine(read, files, strict, stack, [name]) ==> [name][0] !in stack;
  }

  /** Chains from a file on are itself, and the chains from its includes on. */
  lemma TameStep(read: Reader, files: Files, strict: bool, stack: seq<Name>, name: Name)
    ensures Tame(read, files, strict, stack, name) <==>
      (&& Usable(read, files, strict, name) && name !in stack && |stack| < MAX_DEPTH
       && TameAll(read, files, strict, stack + [name], EntriesOf(read, files, name)))
  {
    hide Fine, Chain, Usable;
    ShortFine(read, files, strict, stack, name);
    var targets := Targets(EntriesOf(read, files, name));
    if Tame(read, files, strict, stack, name) {
      forall t, path | t in targets && Chain(read, files, path) && path != [] && path[0] == t
        ensures Fine(read, files, strict, stack + [name], path)
      {
        ChainStarts(read, files, path);
        LongerChain(read, files, name, path);
        LongerFine(read, files, strict, stack, name, path);
        assert ([name] + path)[0] == name;
      }
    }
    if Fine(read, files, strict, stack, [name])
       && TameAll(read, files, strict, stack + [name], EntriesOf(read, files, name)) {
      forall path | Chain(read, files, path) && path != [] && path[0] == name
        ensures Fine(read, files, strict, stack, path)
      {
        ChainStarts(read, files, path);
        if |path| == 1 {
          assert path == [name];
        } else {
          var rest := path[1..];
          assert path == [name] + rest;
          LongerChain(read, files, name, rest);
          LongerFine(read, files, strict, stack, name, rest);
          assert Tame(read, files, strict, stack + [name], rest[0]);
        }
      }
    }
  }

  lemma ChainStarts(read: Reader, files: Files, path: seq<Name>)
    requires Chain(read, files, path)
    ensures path != []
  {
  }

  /**
    Expansion succeeds if and only if every chain of includes is fine and the files, each as often as
    it is included, keep below the limit; and then it is the inlining, in order.
   */
  lemma {:induction false} ExpansionIsInlining(read: Reader, files: Files, strict: bool, name: Name,
                                               stack: seq<Name>, used: nat)
    requires |stack| <= MAX_DEPTH && used <= MAX_BYTES
    ensures var depth := MAX_DEPTH - |stack|;
      var e := Expand(read, files, strict, name, stack, used);
      && (e.Expanded? <==> Tame(read, files, strict, stack, name) && used + Weight(read, files, name, depth) <= MAX_BYTES)
      && (e.Expanded? ==> e == Expanded(Inline(read, files, name, depth), used + Weight(read, files, name, depth)))
    decreases MAX_DEPTH - |stack|, 0
  {
    hide Tame, TameAll, Targets;
    TameStep(read, files, strict, stack, name);
    if name !in stack && |stack| < MAX_DEPTH {
      if name in files {
        if read(files[name], name).Some? && used + |files[name]| <= MAX_BYTES {
          EntriesAreInlined(read, files, strict, EntriesOf(read, files, name), stack + [name], used + |files[name]|);
        }
      } else {
        NoEntries(read, files, strict, stack + [name]);
      }
    }
  }

  lemma NoEntries(read: Reader, files: Files, strict: bool, stack: seq<Name>)
    ensures TameAll(read, files, strict, stack, [])
  {
  }

  lemma {:induction false} EntriesAreInlined(read: Reader, files: Files, strict: bool, entries: seq<Entry>,
                                             stack: seq<Name>, used: nat)
    requires |stack| <= MAX_DEPTH && used <= MAX_BYTES
    ensures var depth := MAX_DEPTH - |stack|;
      var e := ExpandEntries(read, files, strict, entries, stack, used);
      && (e.Expanded? <==> TameAll(read, files, strict, stack, entries) && used + WeightOf(read, files, entries, depth) <= MAX_BYTES)
      && (e.Expanded? ==> e == Expanded(InlineEntries(read, files, entries, depth), used + WeightOf(read, files, entries, depth)))
    decreases MAX_DEPTH - |stack|, |entries|
  {
    hide Tame, Expand, Inline, Weight;
    if entries != [] {
      FirstTame(read, files, strict, stack, entries);
      if entries[0].Plain? {
        EntriesAreInlined(read, files, strict, entries[1..], stack, used);
      } else {
        ExpansionIsInlining(read, files, strict, entries[0].target, stack, used);
        var first := Expand(read, files, strict, entries[0].target, stack, used);
        if first.Expanded? {
          EntriesAreInlined(read, files, strict, entries[1..], stack, first.used);
        }
      }
    }
  }

  lemma FirstTame(read: Reader, files: Files, strict: bool, stack: seq<Name>, entries: seq<Entry>)
    requires entries != []
    ensures TameAll(read, files, strict, stack, entries) <==>
      (&& TameAll(read, files, strict, stack, entries[1..])
       && (entries[0].Directive? ==> Tame(read, files, strict, stack, entries[0].target)))
  {
    hide Tame;
    if entries[0].Directive? {
      assert Targets(entries)[0] == entries[0].target;
      assert forall n :: n in Targets(entries) <==> n == entries[0].target || n in Targets(entries[1..]);
    } else {
      assert Targets(entries) == Targets(entries[1..]);
    }
  }

  /** The depth limit does not show in the result: unfolding deeper gives the same text. */
  lemma {:induction false} InliningIsComplete(read: Reader, files: Files, strict: bool, name: Name,
                                              stack: seq<Name>, depth: nat)
    requires |stack| <= MAX_DEPTH <= depth + |stack| && Tame(read, files, strict, stack, name)
    ensures Inline(read, files, name, depth) == Inline(read, files, name, MAX_DEPTH - |stack|)
    decreases MAX_DEPTH - |stack|, 0
  {
    hide Tame, TameAll;
    TameStep(read, files, strict, stack, name);
    EntriesAreComplete(read, files, strict, EntriesOf(read, files, name), stack + [name], depth - 1);
  }

  lemma {:induction false} EntriesAreComplete(read: Reader, files: Files, strict: bool, entries: seq<Entry>,
                                              stack: seq<Name>, depth: nat)
    requires |stack| <= MAX_DEPTH <= depth + |stack| && TameAll(read, files, strict, stack, entries)
    ensures InlineEntries(read, files, entries, depth) == InlineEntries(read, files, entries, MAX_DEPTH - |stack|)
    decreases MAX_DEPTH - |stack|, |entries|
  {
    hide Tame, TameAll, Inline;
    if entries != [] {
      FirstTame(read, files, strict, stack, entries);
      EntriesAreComplete(read, files, strict, entries[1..], stack, depth);
      if entries[0].Directive? {
        InliningIsComplete(read, files, strict, entries[0].target, stack, depth);
      }
    }
  }

  // ----- a file that was not read -----

  ghost predicate ChainTo(read: Reader, files: Files, from: Name, name: Name) {
    exists path :: Chain(read, files, path) && path[0] == from && path[|path| - 1] == name
  }

  lemma ChainToItself(read: Reader, files: Files, name: Name)
    ensures ChainTo(read, files, name, name)
  {
    assert Chain(read, files, [name]) && [name][0] == name;
  }

  lemma ChainToFurther(read: Reader, files: Files, from: Name, name: Name)
    ensures forall t :: t in Targets(EntriesOf(read, files, from)) && ChainTo(read, files, t, name) ==> ChainTo(read, files, from, name)
  {
    forall t | t in Targets(EntriesOf(read, files, from)) && ChainTo(read, files, t, name) ensures ChainTo(read, files, from, name) {
      var path :| Chain(read, files, path) && path[0] == t && path[|path| - 1] == name;
      ChainStarts(read, files, path);
      LongerChain(read, files, from, path);
      assert ([from] + path)[0] == from && ([from] + path)[|path|] == name;
    }
  }

  /** "Not read" is said of a file that a chain of includes leads to, and that is not there. */
  lemma {:induction false} UnreadIsReached(read: Reader, files: Files, strict: bool, name: Name,
                                           stack: seq<Name>, used: nat, missing: Name)
    requires |stack| <= MAX_DEPTH && Expand(read, files, strict, name, stack, used) == Unread(missing)
    ensures missing !in files && strict && ChainTo(read, files, name, missing)
    decreases MAX_DEPTH - |stack|, 0
  {
    hide ChainTo, Targets;
    if name !in files {
      ChainToItself(read, files, name);
    } else {
      EntriesUnread(read, files, strict, EntriesOf(read, files, name), stack + [name], used + |files[name]|, missing);
      ChainToFurther(read, files, name, missing);
    }
  }

  lemma {:induction false} EntriesUnread(read: Reader, files: Files, strict: bool, entries: seq<Entry>,
                                         stack: seq<Name>, used: nat, missing: Name)
    requires |stack| <= MAX_DEPTH && ExpandEntries(read, files, strict, entries, stack, used) == Unread(missing)
    ensures missing !in files && strict
    ensures exists t :: t in Targets(entries) && ChainTo(read, files, t, missing)
    decreases MAX_DEPTH - |stack|, |entries|
  {
    hide ChainTo, Expand;
    var first := if entries[0].Plain? then Expanded([entries[0].line], used)
                 else Expand(read, files, strict, entries[0].target, stack, used);
    if first.Expanded? {
      EntriesUnread(read, files, strict, entries[1..], stack, first.used, missing);
      var t :| t in Targets(entries[1..]) && ChainTo(read, files, t, missing);
      assert t in Targets(entries);
    } else {
      UnreadIsReached(read, files, strict, entries[0].target, stack, used, missing);
      assert Targets(entries)[0] == entries[0].target;
    }
  }

  // ----- the plan and its baseline -----

  /** The files of the review: the baseline under the planned artifacts. */
  function ReviewFiles(baseline: Contents, artifacts: Files): Files {
    (map name | name in baseline && baseline[name].Some? :: baseline[name].value) + artifacts
  }

  // ----- saved values -----

  /** The saved values of options that nothing sets. */
  function Missing(active: SectionOptions, saved: SectionOptions, id: SectionId): Options {
    map key | key in At(saved, id) && key !in At(active, id) :: At(saved, id)[key]
  }

  /** Saved values count only where the active configuration sets none. */
  function WithSaved(active: SectionOptions, saved: SectionOptions): SectionOptions {
    map id | id in active.Keys + saved.Keys && (id in active || Missing(active, saved, id) != map[]) ::
      Over(Missing(active, saved, id), At(active, id))
  }

  /** The lines of a value: the first one, and the further ones that become indented lines. */
  function FirstLine(value: string): string {
    if value == "" || value[0] == '\n' then "" else [value[0]] + FirstLine(value[1..])
  }

  function FurtherLines(value: string): Text {
    if value == "" then []
    else if value[0] == '\n' then [Words(4, FirstLine(value[1..]))] + FurtherLines(value[1..])
    else FurtherLines(value[1..])
  }

  function Rendered(key: string, value: string): Text {
    [Setting(0, key, key + ": ", FirstLine(value), "")] + FurtherLines(value)
  }

  /** What the further lines add to the value they continue. */
  function Joined(lines: Text): string {
    if lines == [] then "" else "\n" + Raw(lines[0]) + Joined(lines[1..])
  }

  lemma {:induction false} RenderedValue(value: string)
    ensures FirstLine(value) + Joined(FurtherLines(value)) == value
    ensures forall line :: line in FurtherLines(value) ==> line.Words? && line.indent == 4
    decreases |value|
  {
    if value != "" {
      RenderedValue(value[1..]);
      var first, further := FirstLine(value[1..]), FurtherLines(value[1..]);
      assert value == [value[0]] + value[1..];
      assert [value[0]] + (first + Joined(further)) == [value[0]] + first + Joined(further);
      if value[0] == '\n' {
        assert FurtherLines(value) == [Words(4, first)] + further;
        assert FurtherLines(value)[1..] == further;
        assert "" + ("\n" + first + Joined(further)) == "\n" + first + Joined(further);
      }
    }
  }

  lemma {:induction false} ReadFurther(r: Reading, lines: Text, key: string)
    requires r.previous == Some(key) && r.indent == 0 && key in r.options
    requires forall line :: line in lines ==> line.Words? && line.indent == 4
    ensures Read(r, lines) == r.(options := r.options[key := r.options[key] + Joined(lines)])
    decreases |lines|
  {
    if lines == [] {
      assert r.options[key] + "" == r.options[key];
      assert r.options[key := r.options[key]] == r.options;
    } else {
      var next := Feed(r, lines[0]);
      assert lines[0] in lines;
      ReadFurther(next, lines[1..], key);
      assert r.options[key] + "\n" + Raw(lines[0]) + Joined(lines[1..]) == r.options[key] + ("\n" + Raw(lines[0]) + Joined(lines[1..]));
    }
  }

  /** An appended option reads back as its value, of however many lines. */
  lemma RenderedReadsBack(body: Text, key: string, value: string)
    ensures BodyOptions(body + Rendered(key, value)) == BodyOptions(body)[key := value]
  {
    hide Read;
    var before := Read(NOTHING, body);
    ReadAppend(NOTHING, body, Rendered(key, value));
    var first := Setting(0, key, key + ": ", FirstLine(value), "");
    ReadAppend(before, [first], FurtherLines(value));
    ReadOne(before, first);
    RenderedValue(value);
    ReadFurther(Feed(before, first), FurtherLines(value), key);
  }

  lemma ReadOne(r: Reading, line: Line)
    ensures Read(r, [line]) == Feed(r, line)
  {
    assert [line][1..] == [];
  }

  method RenderMissing(missing: Options) returns (body: Text)
    ensures BodyOptions(body) == missing && Headerless(body)
  {
    hide Read;
    body := [];
    var pending := missing.Keys;
    assert Read(NOTHING, []) == NOTHING by { ReadNothing(); }
    while pending != {}
      invariant pending <= missing.Keys && Headerless(body)
      invariant BodyOptions(body) == map key | key in missing && key !in pending :: missing[key]
      decreases |pending|
    {
      var key :| key in pending;
      RenderedReadsBack(body, key, missing[key]);
      RenderedHeaderless(key, missing[key]);
      body := body + Rendered(key, missing[key]);
      pending := pending - {key};
    }
  }

  lemma RenderedHeaderless(key: string, value: string)
    ensures Headerless(Rendered(key, value))
  {
    RenderedValue(value);
    forall i | 0 <= i < |Rendered(key, value)| ensures !Rendered(key, value)[i].Header? {
      if i > 0 {
        assert Rendered(key, value)[i] in FurtherLines(value);
      }
    }
  }

  lemma ReadNothing()
    ensures Read(NOTHING, []) == NOTHING
  {
  }

  /** The last step of `effective_hardware_text`, with the sections taken in any order. */
  method FillSaved(text: Text, saved: SectionOptions) returns (result: Text)
    ensures text <= result && OptionsOf(result) == WithSaved(OptionsOf(text), saved)
  {
    hide OptionsOf, Missing, BodyOptions, Filled, Merge, WithSaved, Headerless;
    var active := ReadOptions(text);
    result := text;
    var pending, done := saved.Keys, {};
    NothingFilled(active, saved);
    while pending != {}
      invariant done + pending == saved.Keys && done !! pending && text <= result
      invariant OptionsOf(result) == Filled(active, saved, done)
      decreases |pending|
    {
      var id :| id in pending;
      var missing := Missing(active, saved, id);
      FilledMore(active, saved, done, id);
      if missing != map[] {
        var body := RenderMissing(missing);
        AppendSection(result, id, body);
        result := result + ([Header(id, "")] + body);
      }
      pending, done := pending - {id}, done + {id};
    }
    assert done == saved.Keys;
    AllFilled(active, saved);
  }

  /** The options after the saved values of some sections were filled in. */
  function Filled(active: SectionOptions, saved: SectionOptions, done: set<SectionId>): SectionOptions {
    map id | id in active.Keys + done && (id in active || Missing(active, saved, id) != map[]) ::
      if id in done then Over(At(active, id), Missing(active, saved, id)) else At(active, id)
  }

  lemma NothingFilled(active: SectionOptions, saved: SectionOptions)
    ensures Filled(active, saved, {}) == active
  {
  }

  lemma OverDisjoint(a: Options, b: Options)
    requires a.Keys !! b.Keys
    ensures Over(a, b) == Over(b, a)
  {
  }

  lemma AllFilled(active: SectionOptions, saved: SectionOptions)
    ensures Filled(active, saved, saved.Keys) == WithSaved(active, saved)
  {
    hide Over;
    forall id | id in active.Keys + saved.Keys
      ensures Over(At(active, id), Missing(active, saved, id)) == Over(Missing(active, saved, id), At(active, id))
      ensures id !in saved ==> Over(Missing(active, saved, id), At(active, id)) == At(active, id)
    {
      OverDisjoint(At(active, id), Missing(active, saved, id));
      OverLaws(At(active, id), map[], map[]);
      assert id !in saved ==> Missing(active, saved, id) == map[];
    }
  }

  lemma FilledMore(active: SectionOptions, saved: SectionOptions, done: set<SectionId>, id: SectionId)
    requires id !in done
    ensures var missing := Missing(active, saved, id);
      Filled(active, saved, done + {id}) ==
        if missing == map[] then Filled(active, saved, done)
        else Merge(Filled(active, saved, done), map[id := missing])
  {
    hide Over, Missing;
    var missing := Missing(active, saved, id);
    OverLaws(At(active, id), map[], map[]);
    var before, after := Filled(active, saved, done), Filled(active, saved, done + {id});
    if missing != map[] {
      FilledMerge(active, saved, done, id);
    }
  }

  lemma FilledMerge(active: SectionOptions, saved: SectionOptions, done: set<SectionId>, id: SectionId)
    requires id !in done && Missing(active, saved, id) != map[]
    ensures Filled(active, saved, done + {id}) == Merge(Filled(active, saved, done), map[id := Missing(active, saved, id)])
  {
    hide Over, Missing;
    var missing := Missing(active, saved, id);
    var before, after := Filled(active, saved, done), Filled(active, saved, done + {id});
    var merged := Merge(before, map[id := missing]);
    assert after.Keys == merged.Keys;
    forall s | s in after ensures after[s] == merged[s] {
      if s == id {
        assert At(before, id) == At(active, id);
      } else {
        OverLaws(before[s], map[], map[]);
      }
    }
  }

  lemma AppendSection(text: Text, id: SectionId, body: Text)
    requires Headerless(body)
    ensures OptionsOf(text + ([Header(id, "")] + body)) == Merge(OptionsOf(text), map[id := BodyOptions(body)])
  {
    hide Merge, BodyOptions;
    var section := [Header(id, "")] + body;
    OptionsAppend(text, section);
    assert section[1..] == body && body + [] == body;
    TakeBodyAppend(body, []);
    SkipHeaderless(body, []);
    MergeUnit(map[id := BodyOptions(body)]);
  }
}

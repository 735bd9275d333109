/**
  Where calibratable settings go, so that Klipper can save over them and what it saved stays effective.

  Beside an include of generated hardware they move to the root, except for what SAVE_CONFIG holds and
  nothing sets; in the root layout only the latter is taken out.  Option names are taken as folded.
 */
module RootCalibration {
  import opened Prelude
  import opened ConfigText
  import opened TuningCarryOver
  import Managed = RootReconcile

  // ----- the lines of one section -----

  predicate PlainName(key: string) {
    forall c :: c in key ==> c !in {' ', '\t', '['}
  }

  /** A line that the pass takes for the start of an option. */
  predicate Starts(line: Line) {
    line.Setting? && line.indent == 0 && PlainName(line.key)
  }

  predicate Indented(line: Line) {
    match line
    case Setting(indent, _, _, _, _) => indent > 0
    case Words(indent, _) => indent > 0
    case Remark(raw) => raw != "" && raw[0] in {' ', '\t'}
    case _ => false
  }

  /** What moves, and what SAVE_CONFIG, the installed files and the section itself say. */
  datatype Rule = Rule(names: set<string>, saved: Options, active: Options, options: Options) {

    /** A default stays unless a saved value would be shadowed by it. */
    predicate Retains(key: string) {
      key !in saved || (key in active && Got(options, key) == Some(active[key]))
    }

    function Moving(moving: bool, line: Line): bool {
      if Starts(line) then line.key in names else moving && Indented(line)
    }

    function Retaining(retain: bool, line: Line): bool {
      if Starts(line) then Retains(line.key) else retain
    }

    function Kept(body: Text, moving: bool): Text
      decreases |body|
    {
      if body == [] then []
      else
        var now := Moving(moving, body[0]);
        (if now then [] else [body[0]]) + Kept(body[1..], now)
    }

    function Moved(body: Text, moving: bool, retain: bool): Text
      decreases |body|
    {
      if body == [] then []
      else
        var now, still := Moving(moving, body[0]), Retaining(retain, body[0]);
        (if now && still then [body[0]] else []) + Moved(body[1..], now, still)
    }

    lemma KeptStep(body: Text, i: nat, moving: bool, kept: Text)
      requires i < |body|
      ensures var now := Moving(moving, body[i]);
        kept + Kept(body[i..], moving) == (if now then kept else kept + [body[i]]) + Kept(body[i + 1..], now)
    {
      hide Moving;
      assert body[i..][1..] == body[i + 1..];
      OneMore(kept, body[i], Kept(body[i + 1..], Moving(moving, body[i])));
    }

    lemma MovedStep(body: Text, i: nat, moving: bool, retain: bool, moved: Text)
      requires i < |body|
      ensures var now, still := Moving(moving, body[i]), Retaining(retain, body[i]);
        moved + Moved(body[i..], moving, retain) ==
          (if now && still then moved + [body[i]] else moved) + Moved(body[i + 1..], now, still)
    {
      hide Moving, Retaining;
      assert body[i..][1..] == body[i + 1..];
      OneMore(moved, body[i], Moved(body[i + 1..], Moving(moving, body[i]), Retaining(retain, body[i])));
    }

    lemma OneMore(before: Text, line: Line, rest: Text)
      ensures before + ([line] + rest) == before + [line] + rest && before + ([] + rest) == before + rest
    {
      assert [] + rest == rest;
    }

    method Divide(body: Text) returns (kept: Text, moved: Text)
      ensures kept == Kept(body, false) && moved == Moved(body, false, false)
    {
      hide Kept, Moved, PlainName, Indented, Retains;
      kept, moved := [], [];
      var moving, retain := false, false;
      assert body[0..] == body;
      assert [] + Kept(body, false) == Kept(body, false) && [] + Moved(body, false, false) == Moved(body, false, false);
      for i := 0 to |body|
        invariant kept + Kept(body[i..], moving) == Kept(body, false)
        invariant moved + Moved(body[i..], moving, retain) == Moved(body, false, false)
      {
        KeptStep(body, i, moving, kept);
        MovedStep(body, i, moving, retain, moved);
        if Starts(body[i]) {
          moving, retain := body[i].key in names, Retains(body[i].key);
        } else if !Indented(body[i]) {
          moving := false;
        }
        if !moving {
          kept := kept + [body[i]];
        } else if retain {
          moved := moved + [body[i]];
        }
      }
      NothingLeft(body, moving, retain);
    }

    lemma NothingLeft(body: Text, moving: bool, retain: bool)
      ensures Kept(body[|body|..], moving) == [] && Moved(body[|body|..], moving, retain) == []
    {
    }
  }

  // ----- what moves -----

  const PID := {"pid_kp", "pid_ki", "pid_kd"}

  predicate Heater(id: SectionId) {
    id.Named? && (id.name in {"extruder", "heater_bed"} || StartsWith(id.name, "heater_generic "))
  }

  predicate PidControl(options: Options) {
    "control" in options && Fold(options["control"]) == "pid"
  }

  /** The settings of a section that Klipper can save; a saved heater calibration must fit the control mode. */
  function Names(id: SectionId, options: Options, saved: Options): Result<set<string>, ()> {
    if Heater(id) && !PidControl(options) && saved.Keys * (PID + {"control"}) != {} then Failure(())
    else if id.Include? then Success(saved.Keys)
    else Success(
      saved.Keys
      + (if Heater(id) then {"control"} + (if PidControl(options) then PID else {}) else {})
      + (if id.name in {"probe", "bltouch"} || StartsWith(id.name, "probe ") then {"z_offset"} else {})
      + (if StartsWith(id.name, "stepper_") then {"position_endstop"} else {})
      + (if id.name == "input_shaper" then {"shaper_freq_x", "shaper_freq_y", "shaper_type_x", "shaper_type_y"} else {}))
  }

  function RuleOf(id: SectionId, body: Text, saved: SectionOptions, active: SectionOptions): Result<Rule, ()> {
    var options := BodyOptions(body);
    var names := Names(id, options, At(saved, id));
    if names.Failure? then Failure(()) else Success(Rule(names.value, At(saved, id), At(active, id), options))
  }

  /** The hardware file without the settings that move, and the sections of those that stay. */
  datatype Divided = Divided(hardware: Text, calibration: Text)

  function Fragment(header: Line, moved: Text): Text {
    if moved == [] then [] else [header] + moved
  }

  function Split(text: Text, saved: SectionOptions, active: SectionOptions): Result<Divided, ()>
    decreases |text|
  {
    if text == [] then Success(Divided([], []))
    else if text[0].Header? then
      var body, rest := TakeBody(text[1..]), Split(DropBody(text[1..]), saved, active);
      var rule := RuleOf(text[0].id, body, saved, active);
      if rule.Failure? || rest.Failure? then Failure(())
      else Success(Divided([text[0]] + rule.value.Kept(body, false) + rest.value.hardware,
                           Fragment(text[0], rule.value.Moved(body, false, false)) + rest.value.calibration))
    else
      var rest := Split(text[1..], saved, active);
      if rest.Failure? then Failure(()) else Success(Divided([text[0]] + rest.value.hardware, rest.value.calibration))
  }

  /** `_root_calibration`: the sections are divided from the last one back. */
  method RootCalibration(text: Text, saved: SectionOptions, active: SectionOptions) returns (r: Result<Divided, ()>)
    ensures r == Split(text, saved, active)
  {
    hide Split, RuleOf, Headerless, TakeBody, DropBody;
    var i, end := |text|, |text|;
    var hardware, calibration: Text := [], [];
    NothingSplit(text, saved, active);
    while i > 0
      invariant 0 <= i <= end <= |text|
      invariant Headerless(text[i..end]) && StartsSection(text[end..])
      invariant Split(text[end..], saved, active) == Success(Divided(hardware, calibration))
    {
      i := i - 1;
      if text[i].Header? {
        var body := text[i + 1..end];
        SplitSection(text, i, end, saved, active);
        var rule := RuleOf(text[i].id, body, saved, active);
        if rule.Failure? {
          SplitFails(text, i, saved, active);
          return Failure(());
        }
        var kept, moved := rule.value.Divide(body);
        hardware := [text[i]] + kept + hardware;
        calibration := Fragment(text[i], moved) + calibration;
        end := i;
        Managed.EmptySpan(text, i);
      } else {
        Managed.LongerSpan(text, i, end);
      }
    }
    assert text == text[0..end] + text[end..];
    SplitLines(text[0..end], text[end..], saved, active);
    r := Success(Divided(text[0..end] + hardware, calibration));
  }

  lemma NothingSplit(text: Text, saved: SectionOptions, active: SectionOptions)
    ensures Split(text[|text|..], saved, active) == Success(Divided([], [])) && Headerless(text[|text|..|text|])
  {
    assert text[|text|..] == [];
  }

  lemma SplitSection(text: Text, i: nat, end: nat, saved: SectionOptions, active: SectionOptions)
    requires i < end <= |text| && text[i].Header? && Headerless(text[i + 1..end]) && StartsSection(text[end..])
    ensures var body, rest := text[i + 1..end], Split(text[end..], saved, active);
      var rule := RuleOf(text[i].id, body, saved, active);
      Split(text[i..], saved, active) ==
        if rule.Failure? || rest.Failure? then Failure(())
        else Success(Divided([text[i]] + rule.value.Kept(body, false) + rest.value.hardware,
                             Fragment(text[i], rule.value.Moved(body, false, false)) + rest.value.calibration))
  {
    hide RuleOf;
    assert text[i..][1..] == text[i + 1..end] + text[end..];
    TakeBodyAppend(text[i + 1..end], text[end..]);
  }

  lemma {:induction false} SplitLines(lines: Text, rest: Text, saved: SectionOptions, active: SectionOptions)
    requires Headerless(lines)
    ensures Split(lines + rest, saved, active) == LinesFirst(lines, Split(rest, saved, active))
    decreases |lines|
  {
    hide RuleOf, Rule.Kept, Rule.Moved, Fragment, TakeBody, DropBody;
    var split := Split(rest, saved, active);
    if lines == [] {
      assert lines + rest == rest;
      assert split.Success? ==> [] + split.value.hardware == split.value.hardware;
    } else {
      assert (lines + rest)[1..] == lines[1..] + rest && (lines + rest)[0] == lines[0];
      SplitLines(lines[1..], rest, saved, active);
      if split.Success? {
        Managed.Associative(lines[0], lines[1..], split.value.hardware);
        assert [lines[0]] + lines[1..] == lines;
      }
    }
  }

  function LinesFirst(lines: Text, split: Result<Divided, ()>): Result<Divided, ()> {
    if split.Failure? then split else Success(Divided(lines + split.value.hardware, split.value.calibration))
  }

  lemma BodyBefore(text: Text, i: nat) returns (n: nat)
    requires 0 < i < |text| && text[i].Header?
    ensures n <= i - 1 && n == |TakeBody(text[1..])| && i - 1 - n < |DropBody(text[1..])|
    ensures DropBody(text[1..])[i - 1 - n..] == text[i..] && DropBody(text[1..])[i - 1 - n].Header?
  {
    var body := TakeBody(text[1..]);
    n := |body|;
    assert text[1..] == body + DropBody(text[1..]);
    assert text[1..][i - 1] == text[i];
  }

  /** A section that cannot be divided fails the whole text. */
  lemma {:induction false} SplitFails(text: Text, i: nat, saved: SectionOptions, active: SectionOptions)
    requires i < |text| && text[i].Header? && Split(text[i..], saved, active).Failure?
    ensures Split(text, saved, active) == Failure(())
    decreases |text|
  {
    hide RuleOf, Rule.Kept, Rule.Moved, Fragment, TakeBody, DropBody;
    if i == 0 {
      assert text[0..] == text;
    } else if text[0].Header? {
      var n := BodyBefore(text, i);
      SplitFails(DropBody(text[1..]), i - 1 - n, saved, active);
    } else {
      assert text[1..][i - 1..] == text[i..];
      SplitFails(text[1..], i - 1, saved, active);
    }
  }

  // ----- what a divided section sets -----

  /**
    A line sets the option although it does not start one for the pass: it is indented, or its name is
    no plain one, and it stands where nothing moves and continues nothing of what is kept.
   */
  predicate Escapes(rule: Rule, r: Reading, body: Text, moving: bool, key: string)
    decreases |body|
  {
    if body == [] then false
    else
      var line, now := body[0], rule.Moving(moving, body[0]);
      if now then Escapes(rule, r, body[1..], now, key)
      else
        (line.Setting? && line.key == key && !Starts(line) && !Continues(r, line))
        || Escapes(rule, Feed(r, line), body[1..], now, key)
  }

  /** The kept lines set a name that moves exactly when a line of it escapes. */
  lemma {:induction false} KeptSets(rule: Rule, r: Reading, body: Text, moving: bool, key: string)
    requires key in rule.names && (r.previous.Some? ==> r.previous.value in r.options)
    ensures key in Read(r, rule.Kept(body, moving)).options <==> key in r.options || Escapes(rule, r, body, moving, key)
    decreases |body|
  {
    if body != [] {
      var line, now := body[0], rule.Moving(moving, body[0]);
      if now {
        KeptSets(rule, r, body[1..], now, key);
        assert [] + rule.Kept(body[1..], now) == rule.Kept(body[1..], now);
      } else {
        KeptSets(rule, Feed(r, line), body[1..], now, key);
        assert ([line] + rule.Kept(body[1..], now))[1..] == rule.Kept(body[1..], now);
      }
    }
  }

  /** The moved lines continue an option that stays, and set nothing else. */
  lemma {:induction false} MovedSets(rule: Rule, r: Reading, body: Text, moving: bool, retain: bool, key: string)
    requires key in rule.saved && key !in rule.active && key !in r.options
    requires moving && retain ==> r.previous.Some? && r.previous.value != key && r.indent == 0
    ensures key !in Read(r, rule.Moved(body, moving, retain)).options
    decreases |body|
  {
    if body != [] {
      var line, now, still := body[0], rule.Moving(moving, body[0]), rule.Retaining(retain, body[0]);
      var rest := rule.Moved(body[1..], now, still);
      if now && still {
        MovedSets(rule, Feed(r, line), body[1..], now, still, key);
        assert ([line] + rest)[1..] == rest;
      } else {
        MovedSets(rule, r, body[1..], now, still, key);
        assert [] + rest == rest;
      }
    }
  }

  // ----- what the divided text sets -----

  /** Some section of that identity lets a line of the option escape. */
  predicate EscapesIn(text: Text, saved: SectionOptions, active: SectionOptions, id: SectionId, key: string)
    decreases |text|
  {
    if text == [] then false
    else if text[0].Header? then
      var body := TakeBody(text[1..]);
      var rule := RuleOf(text[0].id, body, saved, active);
      (text[0].id == id && rule.Success? && Escapes(rule.value, NOTHING, body, false, key))
      || EscapesIn(DropBody(text[1..]), saved, active, id, key)
    else EscapesIn(text[1..], saved, active, id, key)
  }

  lemma KeptHasNoHeader(rule: Rule, body: Text, moving: bool, retain: bool)
    requires Headerless(body)
    ensures Headerless(rule.Kept(body, moving)) && Headerless(rule.Moved(body, moving, retain))
    decreases |body|
  {
    if body != [] {
      KeptHasNoHeader(rule, body[1..], rule.Moving(moving, body[0]), rule.Retaining(retain, body[0]));
    }
  }

  lemma SplitStarts(text: Text, saved: SectionOptions, active: SectionOptions)
    requires Split(text, saved, active).Success?
    ensures var split := Split(text, saved, active).value;
      (StartsSection(text) ==> StartsSection(split.hardware)) && StartsSection(split.calibration)
    decreases |text|
  {
    if text != [] {
      SplitStarts(if text[0].Header? then DropBody(text[1..]) else text[1..], saved, active);
    }
  }

  /** The options of a section and of what follows it. */
  lemma OneSection(header: Line, body: Text, rest: Text, id: SectionId)
    requires header.Header? && Headerless(body) && StartsSection(rest)
    ensures At(OptionsOf([header] + body + rest), id) ==
      Over(if header.id == id then BodyOptions(body) else map[], At(OptionsOf(rest), id))
  {
    hide BodyOptions, Merge;
    assert ([header] + body + rest)[1..] == body + rest;
    TakeBodyAppend(body, rest);
    SkipHeaderless(body, rest);
    AtMerge(map[header.id := BodyOptions(body)], OptionsOf(rest), id);
  }

  lemma FragmentOptions(header: Line, moved: Text, rest: Text, id: SectionId)
    requires header.Header? && Headerless(moved) && StartsSection(rest)
    ensures At(OptionsOf(Fragment(header, moved) + rest), id) ==
      Over(if header.id == id then BodyOptions(moved) else map[], At(OptionsOf(rest), id))
  {
    if moved == [] {
      assert [] + rest == rest;
      OverLaws(At(OptionsOf(rest), id), map[], map[]);
    } else {
      OneSection(header, moved, rest, id);
    }
  }

  /**
    What SAVE_CONFIG holds and nothing sets: the moved sections never set it, and the hardware file sets
    it if and only if a line of it escapes.
   */
  lemma {:induction false} SavedIsNotSet(text: Text, saved: SectionOptions, active: SectionOptions, id: SectionId, key: string)
    requires Split(text, saved, active).Success? && key in At(saved, id) && key !in At(active, id)
    ensures var split := Split(text, saved, active).value;
      && key !in At(OptionsOf(split.calibration), id)
      && (key in At(OptionsOf(split.hardware), id) <==> EscapesIn(text, saved, active, id, key))
    decreases |text|
  {
    hide BodyOptions, Merge, Escapes, RuleOf;
    if text == [] {
    } else if text[0].Header? {
      var body, rest := TakeBody(text[1..]), DropBody(text[1..]);
      SavedIsNotSet(rest, saved, active, id, key);
      SplitStarts(rest, saved, active);
      var rule, split := RuleOf(text[0].id, body, saved, active).value, Split(rest, saved, active).value;
      KeptHasNoHeader(rule, body, false, false);
      OneSection(text[0], rule.Kept(body, false), split.hardware, id);
      FragmentOptions(text[0], rule.Moved(body, false, false), split.calibration, id);
      if text[0].id == id {
        SectionSaved(text[0].id, body, saved, active, key);
      }
    } else {
      SavedIsNotSet(text[1..], saved, active, id, key);
      LineBefore(text[0], Split(text[1..], saved, active).value.hardware);
    }
  }

  lemma LineBefore(line: Line, rest: Text)
    requires !line.Header?
    ensures OptionsOf([line] + rest) == OptionsOf(rest)
  {
    assert ([line] + rest)[1..] == rest;
  }

  lemma SectionSaved(id: SectionId, body: Text, saved: SectionOptions, active: SectionOptions, key: string)
    requires RuleOf(id, body, saved, active).Success? && key in At(saved, id) && key !in At(active, id)
    ensures var rule := RuleOf(id, body, saved, active).value;
      && key !in BodyOptions(rule.Moved(body, false, false))
      && (key in BodyOptions(rule.Kept(body, false)) <==> Escapes(rule, NOTHING, body, false, key))
  {
    var rule := RuleOf(id, body, saved, active).value;
    MovedSets(rule, NOTHING, body, false, false, key);
    KeptSets(rule, NOTHING, body, false, key);
  }

  /** A line that the pattern of the option matches stands at the first column under a plain name. */
  predicate PlainLines(text: Text, key: string) {
    forall line :: line in text && line.Setting? && line.key == key ==> Starts(line)
  }

  lemma {:induction false} NothingEscapes(text: Text, saved: SectionOptions, active: SectionOptions, id: SectionId, key: string)
    requires PlainLines(text, key)
    ensures !EscapesIn(text, saved, active, id, key)
    decreases |text|
  {
    hide RuleOf;
    if text != [] {
      if text[0].Header? {
        var body, rest := TakeBody(text[1..]), DropBody(text[1..]);
        assert text[1..] == body + rest;
        NothingEscapes(rest, saved, active, id, key);
        var rule := RuleOf(text[0].id, body, saved, active);
        if rule.Success? {
          NoLineEscapes(rule.value, NOTHING, body, false, key);
        }
      } else {
        NothingEscapes(text[1..], saved, active, id, key);
      }
    }
  }

  lemma {:induction false} NoLineEscapes(rule: Rule, r: Reading, body: Text, moving: bool, key: string)
    requires PlainLines(body, key)
    ensures !Escapes(rule, r, body, moving, key)
    decreases |body|
  {
    if body != [] {
      NoLineEscapes(rule, r, body[1..], rule.Moving(moving, body[0]), key);
      NoLineEscapes(rule, Feed(r, body[0]), body[1..], rule.Moving(moving, body[0]), key);
    }
  }

  const PROBE := Header(Named("probe"), "[probe]")

  const INDENTED := Setting(2, "z_offset", "  z_offset: ", "0", "")
  const SAVED_OFFSET: SectionOptions := map[Named("probe") := map["z_offset" := "1.5"]]

  /** An indented default is overlooked: it stays in the hardware file, over the saved value. */
  lemma IndentedDefaultShadowsSaved()
    ensures Split([PROBE, INDENTED], SAVED_OFFSET, map[]) == Success(Divided([PROBE, INDENTED], []))
    ensures Got(At(OptionsOf([PROBE, INDENTED]), Named("probe")), "z_offset") == Some("0")
  {
    hide OptionsOf, Split;
    var text, body := [PROBE, INDENTED], [INDENTED];
    assert text[0..] == text && text[2..] == [] && text[1..2] == body && body[1..] == [];
    SplitSection(text, 0, 2, SAVED_OFFSET, map[]);
    IndentedRule();
    assert [PROBE] + body + [] == text;
    NothingSplit(text, SAVED_OFFSET, map[]);
    OneSection(PROBE, body, [], Named("probe"));
    NotThere([], Named("probe"));
    OverLaws(BodyOptions(body), map[], map[]);
  }

  lemma IndentedRule()
    ensures var rule := RuleOf(Named("probe"), [INDENTED], SAVED_OFFSET, map[]);
      && rule.Success? && rule.value.Kept([INDENTED], false) == [INDENTED]
      && rule.value.Moved([INDENTED], false, false) == []
    ensures BodyOptions([INDENTED]) == map["z_offset" := "0"]
  {
    assert [INDENTED][1..] == [];
    assert Read(NOTHING, [INDENTED]) == Read(Feed(NOTHING, INDENTED), []) == Feed(NOTHING, INDENTED);
    var rule := RuleOf(Named("probe"), [INDENTED], SAVED_OFFSET, map[]).value;
    assert rule.Kept([INDENTED], false) == [INDENTED] + rule.Kept([], false);
    assert rule.Moved([INDENTED], false, false) == [] + rule.Moved([], false, false);
  }

  // ----- the root layout: saved settings are taken out -----

  predicate Sets(line: Line, names: set<string>) {
    line.Setting? && line.indent == 0 && line.key in names
  }

  /** In one section, without the lines that set one of the names at the first column. */
  function TrimBody(body: Text, removed: set<string>): Text {
    if body == [] then []
    else (if Sets(body[0], removed) then [] else [body[0]]) + TrimBody(body[1..], removed)
  }

  function Removed(saved: SectionOptions, active: SectionOptions, id: SectionId): set<string> {
    At(saved, id).Keys - At(active, id).Keys
  }

  function Trimmed(text: Text, saved: SectionOptions, active: SectionOptions): Text
    decreases |text|
  {
    if text == [] then []
    else if text[0].Header? then
      [text[0]] + TrimBody(TakeBody(text[1..]), Removed(saved, active, text[0].id)) + Trimmed(DropBody(text[1..]), saved, active)
    else [text[0]] + Trimmed(text[1..], saved, active)
  }

  /** An indented line of the option that continues nothing of what is left. */
  predicate Remains(removed: set<string>, r: Reading, body: Text, key: string)
    decreases |body|
  {
    if body == [] then false
    else
      var line := body[0];
      if Sets(line, removed) then Remains(removed, r, body[1..], key)
      else
        (line.Setting? && line.key == key && line.indent > 0 && !Continues(r, line))
        || Remains(removed, Feed(r, line), body[1..], key)
  }

  predicate RemainsIn(text: Text, saved: SectionOptions, active: SectionOptions, id: SectionId, key: string)
    decreases |text|
  {
    if text == [] then false
    else if text[0].Header? then
      (text[0].id == id && Remains(Removed(saved, active, id), NOTHING, TakeBody(text[1..]), key))
      || RemainsIn(DropBody(text[1..]), saved, active, id, key)
    else RemainsIn(text[1..], saved, active, id, key)
  }

  lemma {:induction false} TrimSets(removed: set<string>, r: Reading, body: Text, key: string)
    requires key in removed && (r.previous.Some? ==> r.previous.value in r.options)
    ensures key in Read(r, TrimBody(body, removed)).options <==> key in r.options || Remains(removed, r, body, key)
    decreases |body|
  {
    if body != [] {
      var line, rest := body[0], TrimBody(body[1..], removed);
      if Sets(line, removed) {
        TrimSets(removed, r, body[1..], key);
        assert [] + rest == rest;
      } else {
        TrimSets(removed, Feed(r, line), body[1..], key);
        assert ([line] + rest)[1..] == rest;
      }
    }
  }

  lemma TrimHasNoHeader(body: Text, removed: set<string>)
    requires Headerless(body)
    ensures Headerless(TrimBody(body, removed))
    decreases |body|
  {
    if body != [] {
      TrimHasNoHeader(body[1..], removed);
    }
  }

  lemma TrimmedStarts(text: Text, saved: SectionOptions, active: SectionOptions)
    requires StartsSection(text)
    ensures StartsSection(Trimmed(text, saved, active))
  {
  }

  /** What SAVE_CONFIG holds and nothing sets, the generated settings of the root set only where a line remains. */
  lemma {:induction false} SavedIsTrimmed(text: Text, saved: SectionOptions, active: SectionOptions, id: SectionId, key: string)
    requires key in At(saved, id) && key !in At(active, id)
    ensures key in At(OptionsOf(Trimmed(text, saved, active)), id) <==> RemainsIn(text, saved, active, id, key)
    decreases |text|
  {
    hide BodyOptions, Merge, Remains, TrimBody;
    if text == [] {
    } else if text[0].Header? {
      var body, rest := TakeBody(text[1..]), DropBody(text[1..]);
      SavedIsTrimmed(rest, saved, active, id, key);
      TrimmedStarts(rest, saved, active);
      var removed := Removed(saved, active, text[0].id);
      TrimHasNoHeader(body, removed);
      OneSection(text[0], TrimBody(body, removed), Trimmed(rest, saved, active), id);
      if text[0].id == id {
        TrimBodySets(removed, body, key);
      }
    } else {
      SavedIsTrimmed(text[1..], saved, active, id, key);
      LineBefore(text[0], Trimmed(text[1..], saved, active));
    }
  }

  lemma TrimBodySets(removed: set<string>, body: Text, key: string)
    requires key in removed
    ensures key in BodyOptions(TrimBody(body, removed)) <==> Remains(removed, NOTHING, body, key)
  {
    TrimSets(removed, NOTHING, body, key);
  }

  /** `_reconcile_root`, in the root layout. */
  method TrimSaved(text: Text, saved: SectionOptions, active: SectionOptions) returns (result: Text)
    ensures result == Trimmed(text, saved, active)
  {
    hide Trimmed, Headerless, TakeBody, DropBody;
    var i, end := |text|, |text|;
    result := [];
    assert text[end..] == [] && Headerless(text[i..end]) by { NothingSplit(text, saved, active); }
    assert Trimmed([], saved, active) == [] by { NothingTrimmed(saved, active); }
    while i > 0
      invariant 0 <= i <= end <= |text|
      invariant Headerless(text[i..end]) && StartsSection(text[end..])
      invariant Trimmed(text[end..], saved, active) == result
    {
      i := i - 1;
      if text[i].Header? {
        TrimSection(text, i, end, saved, active);
        var lines := TrimLines(text[i + 1..end], Removed(saved, active, text[i].id));
        result := [text[i]] + lines + result;
        end := i;
        Managed.EmptySpan(text, i);
      } else {
        Managed.LongerSpan(text, i, end);
      }
    }
    assert text == text[0..end] + text[end..];
    TrimmedLines(text[0..end], text[end..], saved, active);
    result := text[0..end] + result;
  }

  method TrimLines(body: Text, removed: set<string>) returns (lines: Text)
    ensures lines == TrimBody(body, removed)
  {
    hide Sets;
    lines := [];
    assert body[0..] == body;
    for i := 0 to |body|
      invariant lines + TrimBody(body[i..], removed) == TrimBody(body, removed)
    {
      TrimStep(body, i, removed, lines);
      if !Sets(body[i], removed) {
        lines := lines + [body[i]];
      }
    }
    assert body[|body|..] == [];
  }

  lemma TrimStep(body: Text, i: nat, removed: set<string>, lines: Text)
    requires i < |body|
    ensures lines + TrimBody(body[i..], removed) ==
      (if Sets(body[i], removed) then lines else lines + [body[i]]) + TrimBody(body[i + 1..], removed)
  {
    hide Sets;
    assert body[i..][1..] == body[i + 1..];
    assert [] + TrimBody(body[i + 1..], removed) == TrimBody(body[i + 1..], removed);
  }

  lemma NothingTrimmed(saved: SectionOptions, active: SectionOptions)
    ensures Trimmed([], saved, active) == []
  {
  }

  lemma TrimSection(text: Text, i: nat, end: nat, saved: SectionOptions, active: SectionOptions)
    requires i < end <= |text| && text[i].Header? && Headerless(text[i + 1..end]) && StartsSection(text[end..])
    ensures Trimmed(text[i..], saved, active) ==
      [text[i]] + TrimBody(text[i + 1..end], Removed(saved, active, text[i].id)) + Trimmed(text[end..], saved, active)
  {
    assert text[i..][1..] == text[i + 1..end] + text[end..];
    TakeBodyAppend(text[i + 1..end], text[end..]);
  }

  lemma {:induction false} TrimmedLines(lines: Text, rest: Text, saved: SectionOptions, active: SectionOptions)
    requires Headerless(lines)
    ensures Trimmed(lines + rest, saved, active) == lines + Trimmed(rest, saved, active)
    decreases |lines|
  {
    if lines == [] {
      assert lines + rest == rest;
    } else {
      assert (lines + rest)[1..] == lines[1..] + rest;
      TrimmedLines(lines[1..], rest, saved, active);
      assert [lines[0]] + (lines[1..] + Trimmed(rest, saved, active)) == lines + Trimmed(rest, saved, active);
    }
  }

  const SPEED := Setting(0, "speed", "speed: ", "5", "")
  const POINTS := Setting(0, "points", "points: ", "1", "")
  const FURTHER := Words(4, "2")

  /** The further lines of a setting that is taken out are read as lines of the one before it. */
  lemma ContinuationOutlivesItsOption()
    ensures Got(BodyOptions([SPEED, POINTS, FURTHER]), "speed") == Some("5")
    ensures TrimBody([SPEED, POINTS, FURTHER], {"points"}) == [SPEED, FURTHER]
    ensures Got(BodyOptions([SPEED, FURTHER]), "speed") == Some("5" + "\n" + "2")
  {
    ReadThree(SPEED, POINTS, FURTHER);
    TrimThree();
    assert [SPEED, FURTHER][1..] == [FURTHER] && [FURTHER][1..] == [];
    var r := Feed(NOTHING, SPEED);
    assert Read(NOTHING, [SPEED, FURTHER]) == Read(r, [FURTHER]);
    assert Read(r, [FURTHER]) == Read(Feed(r, FURTHER), []) == Feed(r, FURTHER);
  }

  lemma TrimThree()
    ensures TrimBody([SPEED, POINTS, FURTHER], {"points"}) == [SPEED, FURTHER]
  {
    TrimStep([SPEED, POINTS, FURTHER], 0, {"points"}, []);
    TrimStep([SPEED, POINTS, FURTHER], 1, {"points"}, [SPEED]);
    TrimStep([SPEED, POINTS, FURTHER], 2, {"points"}, [SPEED]);
    assert [SPEED, POINTS, FURTHER][0..] == [SPEED, POINTS, FURTHER];
    assert [SPEED, POINTS, FURTHER][3..] == [];
  }

  lemma ReadThree(first: Line, second: Line, third: Line)
    ensures Read(NOTHING, [first, second, third]) == Feed(Feed(Feed(NOTHING, first), second), third)
  {
    assert [first, second, third][1..] == [second, third] && [second, third][1..] == [third] && [third][1..] == [];
    assert Read(Feed(Feed(NOTHING, first), second), [third]) == Feed(Feed(Feed(NOTHING, first), second), third);
  }

  /** No setting that is taken out has further lines; `after` one, the next line of the section must not be indented. */
  predicate OneLine(after: bool, body: Text, removed: set<string>)
    decreases |body|
  {
    if body == [] then true
    else if body[0].Setting? || body[0].Words? then
      (after ==> body[0].indent == 0) && OneLine(Sets(body[0], removed), body[1..], removed)
    else OneLine(after, body[1..], removed)
  }

  /** Two readings with the same options outside `removed`, about to continue the same one. */
  ghost predicate SameOutside(r: Reading, q: Reading, after: bool, removed: set<string>) {
    && (forall k :: k !in removed ==> Got(r.options, k) == Got(q.options, k))
    && (!after ==> q.previous == r.previous && (r.previous.Some? ==> q.indent == r.indent))
  }

  /** Without further lines, taking settings out leaves every other one of the section as it is. */
  lemma {:induction false} TrimKeepsOthers(r: Reading, q: Reading, after: bool, body: Text, removed: set<string>)
    requires OneLine(after, body, removed) && SameOutside(r, q, after, removed)
    ensures forall k :: k !in removed ==> Got(Read(r, body).options, k) == Got(Read(q, TrimBody(body, removed)).options, k)
    decreases |body|
  {
    if body != [] {
      var line, rest := body[0], TrimBody(body[1..], removed);
      var now := if line.Setting? || line.Words? then Sets(line, removed) else after;
      if Sets(line, removed) {
        assert [] + rest == rest;
        TrimKeepsOthers(Feed(r, line), q, now, body[1..], removed);
      } else {
        assert ([line] + rest)[1..] == rest;
        SameFeed(r, q, after, line, removed);
        TrimKeepsOthers(Feed(r, line), Feed(q, line), now, body[1..], removed);
      }
    }
  }

  lemma SameFeed(r: Reading, q: Reading, after: bool, line: Line, removed: set<string>)
    requires SameOutside(r, q, after, removed) && !Sets(line, removed)
    requires after && (line.Setting? || line.Words?) ==> line.indent == 0
    ensures SameOutside(Feed(r, line), Feed(q, line), after && !line.Setting? && !line.Words?, removed)
  {
    forall k | k !in removed ensures Got(Feed(r, line).options, k) == Got(Feed(q, line).options, k) {
      assert Got(r.options, k) == Got(q.options, k);
    }
  }

  // ----- the planned root -----

  predicate Silent(text: Text) {
    forall line :: line in text ==> !line.Setting? && !line.Words?
  }

  lemma {:induction false} SilentReading(r: Reading, body: Text)
    requires Silent(body)
    ensures Read(r, body) == r
    decreases |body|
  {
    if body != [] {
      SilentReading(r, body[1..]);
    }
  }

  /** Comments behind a text change nothing in it. */
  lemma {:induction false} SilentTail(text: Text, lines: Text)
    requires Silent(lines) && Headerless(lines)
    ensures OptionsOf(text + lines) == OptionsOf(text)
    decreases |text|
  {
    hide Merge;
    if text == [] {
      SkipHeaderless(lines, []);
      assert text + lines == lines + [] == lines;
    } else {
      assert (text + lines)[1..] == text[1..] + lines;
      SilentTail(text[1..], lines);
      if text[0].Header? {
        TakeBehind(text[1..], lines);
      }
    }
  }

  lemma TakeBehind(text: Text, lines: Text)
    requires Silent(lines) && Headerless(lines)
    ensures BodyOptions(TakeBody(text + lines)) == BodyOptions(TakeBody(text))
  {
    hide Silent, Read;
    if Headerless(text) {
      Managed.BothHeaderless(text, lines);
      WholeBody(text + lines);
      WholeBody(text);
      ReadAppend(NOTHING, text, lines);
      SilentReading(Read(NOTHING, text), lines);
    } else {
      TakenBefore(text, lines);
    }
  }

  lemma WholeBody(text: Text)
    requires Headerless(text)
    ensures TakeBody(text) == text
  {
    TakeBodyAppend(text, []);
    assert text + [] == text;
  }

  lemma TakenBefore(text: Text, lines: Text)
    requires !Headerless(text)
    ensures TakeBody(text + lines) == TakeBody(text)
  {
    hide Headerless;
    var body, rest := TakeBody(text), DropBody(text);
    TakenHeaderless(text);
    AllTaken(text);
    assert text + lines == body + (rest + lines);
    assert StartsSection(rest + lines) by { assert (rest + lines)[0] == rest[0]; }
    TakeBodyAppend(body, rest + lines);
  }

  lemma AllTaken(text: Text)
    ensures DropBody(text) == [] ==> Headerless(text)
  {
    TakenHeaderless(text);
    assert TakeBody(text) + [] == TakeBody(text);
  }

  predicate Without(text: Text, id: SectionId) {
    forall line :: line in text ==> !Is(line, id)
  }

  lemma {:induction false} NotThere(text: Text, id: SectionId)
    requires Without(text, id)
    ensures At(OptionsOf(text), id) == map[]
    decreases |text|
  {
    AbsentSection(text, id);
    NoneCounted(text, id);
  }

  lemma {:induction false} NoneCounted(text: Text, id: SectionId)
    requires Without(text, id)
    ensures Count(text, id) == 0
    decreases |text|
  {
    if text != [] {
      NoneCounted(text[1..], id);
    }
  }

  /** Between texts without the section, a text sets what it sets alone with the lines right behind it. */
  lemma OptionsAround(a: Text, b: Text, c: Text, id: SectionId)
    requires Without(a, id) && Without(c, id)
    ensures At(OptionsOf(a + b + c), id) == At(OptionsOf(b + TakeBody(c)), id)
  {
    hide OptionsOf, Merge, Without, TakeBody, DropBody, Headerless;
    var lines, rest, behind, back := TakeBody(b), DropBody(b), TakeBody(c), DropBody(c);
    TakenHeaderless(b);
    TakenHeaderless(c);
    var whole := a + lines + (rest + behind);
    assert a + b + c == whole + back && b + behind == lines + (rest + behind) by {
      assert b == lines + rest && c == behind + back;
    }
    SkipHeaderless(lines, rest + behind);
    OptionsAppend(whole, back);
    AtMerge(OptionsOf(whole), OptionsOf(back), id);
    PartsWithout(a, b, c, id);
    NotThere(back, id);
    OverLaws(At(OptionsOf(whole), id), map[], map[]);
    if rest == [] {
      assert [] + behind == behind;
      NotThere(whole, id);
      NotThere(behind, id);
    } else {
      assert (rest + behind)[0] == rest[0];
      OptionsAppend(a + lines, rest + behind);
      AtMerge(OptionsOf(a + lines), OptionsOf(rest + behind), id);
      NotThere(a + lines, id);
      OverLaws(At(OptionsOf(rest + behind), id), map[], map[]);
    }
  }

  lemma PartsWithout(a: Text, b: Text, c: Text, id: SectionId)
    requires Without(a, id) && Without(c, id)
    ensures Without(a + TakeBody(b), id) && Without(DropBody(c), id) && Without(TakeBody(c), id)
    ensures Without(a + TakeBody(b) + ([] + TakeBody(c)), id)
  {
  }

  /** Lines behind a text belong to its last section and to no other. */
  lemma {:induction false} OnlyTheLastSection(text: Text, lines: Text, id: SectionId)
    requires Headerless(lines) && !Managed.EndsIn(text, {id})
    ensures At(OptionsOf(text + lines), id) == At(OptionsOf(text), id)
    decreases |text|
  {
    hide BodyOptions, Merge;
    if text == [] {
      SkipHeaderless(lines, []);
      assert text + lines == lines + [] == lines;
    } else {
      assert (text + lines)[1..] == text[1..] + lines;
      Managed.NoLastHeader(text[1..]);
      if Headerless(text[1..]) {
        Managed.BothHeaderless(text[1..], lines);
        SkipHeaderless(text[1..] + lines, []);
        SkipHeaderless(text[1..], []);
        assert text[1..] + lines + [] == text[1..] + lines && text[1..] + [] == text[1..];
      } else {
        OnlyTheLastSection(text[1..], lines, id);
        TakenBefore(text[1..], lines);
      }
      if text[0].Header? {
        var first := map[text[0].id := BodyOptions(TakeBody(text[1..]))];
        AtMerge(first, OptionsOf(text[1..]), id);
        AtMerge(map[text[0].id := BodyOptions(TakeBody(text[1..] + lines))], OptionsOf(text[1..] + lines), id);
      }
    }
  }

  /** The generated sections that the root has. */
  function InRoot(plan: Managed.Plan): Text {
    if plan.inline then plan.generated else plan.calibration
  }

  /** The lines right behind them, up to the next header. */
  function Behind(existing: Text, plan: Managed.Plan): Text {
    if plan.inline && plan.macros then [] else [End] + TakeBody(Managed.UserPart(Managed.Base(existing, plan), plan))
  }

  /** Those lines are comments, or belong to another section. */
  predicate QuietBehind(existing: Text, plan: Managed.Plan, id: SectionId) {
    Silent(Behind(existing, plan)) || !Managed.EndsIn(InRoot(plan), {id})
  }

  /** In a section of its own the generated configuration and the lines right behind it say what the root sets. */
  lemma RootSets(existing: Text, plan: Managed.Plan, id: SectionId)
    requires Managed.Clean(plan) && !Managed.Malformed(existing) && id in plan.owned
    ensures At(OptionsOf(Managed.Reconcile(existing, plan).value), id) == At(OptionsOf(InRoot(plan) + Behind(existing, plan)), id)
  {
    hide Managed.Base, Managed.Lead, Managed.UserPart, Managed.BlockIncludes, OptionsOf, TakeBody, Managed.Malformed,
      Managed.Clean, Without;
    var base := Managed.Base(existing, plan);
    var lead, extra, user := Managed.Lead(base, plan), Managed.BlockIncludes(base, plan), Managed.UserPart(base, plan);
    var macros := if plan.macros then [Managed.IncludeLine(Managed.MACROS)] else [];
    RootWithout(existing, plan, id);
    var a, b, c := lead + [Begin] + extra, plan.generated, macros + [End] + user;
    if !plan.inline {
      a, b, c := lead + [Begin] + extra + [Managed.IncludeLine(Managed.HARDWARE)] + macros, plan.calibration, [End] + user;
    } else {
      NoCalibration(plan);
    }
    assert Managed.Reconcile(existing, plan).value == a + b + c by { RootParts(existing, plan); }
    BehindTheBlock(macros, user, plan);
    OptionsAround(a, b, c, id);
  }

  /** Mostly that is what was planned for it alone. */
  lemma RootSetsQuietly(existing: Text, plan: Managed.Plan, id: SectionId)
    requires Managed.Clean(plan) && !Managed.Malformed(existing) && id in plan.owned && QuietBehind(existing, plan, id)
    ensures At(OptionsOf(Managed.Reconcile(existing, plan).value), id) == At(OptionsOf(InRoot(plan)), id)
  {
    hide Managed.Clean, Managed.Malformed, Managed.Base, Managed.UserPart, OptionsOf, Silent, InRoot, Managed.EndsIn;
    RootSets(existing, plan, id);
    BehindIsHeaderless(existing, plan);
    if Silent(Behind(existing, plan)) {
      SilentTail(InRoot(plan), Behind(existing, plan));
    } else {
      OnlyTheLastSection(InRoot(plan), Behind(existing, plan), id);
    }
  }

  lemma BehindIsHeaderless(existing: Text, plan: Managed.Plan)
    ensures Headerless(Behind(existing, plan))
  {
    hide Managed.Base, Managed.UserPart;
  }

  lemma NoCalibration(plan: Managed.Plan)
    requires Managed.Clean(plan) && plan.inline
    ensures plan.calibration == []
  {
  }

  lemma RootParts(existing: Text, plan: Managed.Plan)
    requires !Managed.Malformed(existing) && (plan.inline ==> plan.calibration == [])
    ensures var base := Managed.Base(existing, plan);
      var lead, extra, user := Managed.Lead(base, plan), Managed.BlockIncludes(base, plan), Managed.UserPart(base, plan);
      var macros := if plan.macros then [Managed.IncludeLine(Managed.MACROS)] else [];
      Managed.Reconcile(existing, plan).value ==
        if plan.inline then lead + [Begin] + extra + plan.generated + (macros + [End] + user)
        else lead + [Begin] + extra + [Managed.IncludeLine(Managed.HARDWARE)] + macros + plan.calibration + ([End] + user)
  {
    hide Managed.Base, Managed.Lead, Managed.UserPart, Managed.BlockIncludes;
  }

  lemma BehindTheBlock(macros: Text, user: Text, plan: Managed.Plan)
    requires macros == if plan.macros then [Managed.IncludeLine(Managed.MACROS)] else []
    ensures TakeBody(if plan.inline then macros + [End] + user else [End] + user) ==
      if plan.inline && plan.macros then [] else [End] + TakeBody(user)
  {
    var c := if plan.inline then macros + [End] + user else [End] + user;
    if plan.inline && plan.macros {
      assert c[0] == macros[0];
    } else {
      assert c == [End] + user && c[1..] == user;
    }
  }

  /** Around the generated sections the root has none of their identities. */
  lemma RootWithout(existing: Text, plan: Managed.Plan, id: SectionId)
    requires Managed.Clean(plan) && id in plan.owned
    ensures var base := Managed.Base(existing, plan);
      var lead, extra, user := Managed.Lead(base, plan), Managed.BlockIncludes(base, plan), Managed.UserPart(base, plan);
      var macros := if plan.macros then [Managed.IncludeLine(Managed.MACROS)] else [];
      && Without(lead + [Begin] + extra, id) && Without(macros + [End] + user, id) && Without([End] + user, id)
      && Without(lead + [Begin] + extra + [Managed.IncludeLine(Managed.HARDWARE)] + macros, id)
  {
    hide Managed.StripSections, Managed.Outside;
    var base := Managed.Base(existing, plan);
    Managed.ExtraIsGenerated(plan.includes, Managed.HeaderIds(base));
    Managed.ExtraIsGenerated(plan.includes, Managed.HeaderIds(base) + if plan.inline then {Managed.MAINSAIL} else {});
    forall line
      ensures line in Managed.Lead(base, plan) + Managed.BlockIncludes(base, plan) + Managed.UserPart(base, plan) ==>
        !Is(line, id)
    {
      Managed.StripOnlyRemoves(Managed.Outside(existing, plan), plan.owned, line);
      Managed.MovedLines(base, line);
      Managed.MovedLines(Managed.Extra(plan.includes, Managed.HeaderIds(base)), line);
    }
  }

  // ----- what SAVE_CONFIG holds stays effective -----

  /** What goes into the root, and into the hardware file beside it. */
  datatype Planned = Planned(plan: Managed.Plan, hardware: Text)

  /** `text` is the generated configuration without its include sections. */
  function PlanOf(text: Text, includes: Text, saved: SectionOptions, active: SectionOptions, macros: bool,
                  inline: bool): Result<Planned, ()>
  {
    var owned := Managed.HeaderIds(text);
    if inline then Success(Planned(Managed.Plan(owned, includes, Trimmed(text, saved, active), [], macros, true), []))
    else
      var split := Split(text, saved, active);
      if split.Failure? then Failure(())
      else Success(Planned(Managed.Plan(owned, includes, [], split.value.calibration, macros, false), split.value.hardware))
  }

  /** The generated configuration has named sections only, and none of the lines that KACE and Klipper mark a root with. */
  predicate OwnText(text: Text, includes: Text) {
    && (forall line :: line in text ==> line !in {Begin, End, SaveHeader, Managed.LAYOUT} && (line.Header? ==> line.id.Named?))
    && (forall line :: line in includes ==> line.Header? && line.id.Include?)
  }

  lemma {:induction false} TrimmedOnlyKeeps(text: Text, saved: SectionOptions, active: SectionOptions, line: Line)
    ensures line in Trimmed(text, saved, active) ==> line in text
    decreases |text|
  {
    if text != [] {
      if text[0].Header? {
        TakenHeaderless(text[1..]);
        TrimBodyOnlyKeeps(TakeBody(text[1..]), Removed(saved, active, text[0].id), line);
        TrimmedOnlyKeeps(DropBody(text[1..]), saved, active, line);
      } else {
        TrimmedOnlyKeeps(text[1..], saved, active, line);
      }
    }
  }

  lemma {:induction false} TrimBodyOnlyKeeps(body: Text, removed: set<string>, line: Line)
    ensures line in TrimBody(body, removed) ==> line in body
    decreases |body|
  {
    if body != [] {
      TrimBodyOnlyKeeps(body[1..], removed, line);
    }
  }

  lemma {:induction false} SplitOnlyKeeps(text: Text, saved: SectionOptions, active: SectionOptions, line: Line)
    requires Split(text, saved, active).Success?
    ensures var split := Split(text, saved, active).value;
      line in split.hardware + split.calibration ==> line in text
    decreases |text|
  {
    hide RuleOf, Rule.Kept, Rule.Moved, Fragment;
    if text != [] {
      if text[0].Header? {
        var body, rest := TakeBody(text[1..]), DropBody(text[1..]);
        var rule, split := RuleOf(text[0].id, body, saved, active).value, Split(rest, saved, active).value;
        RuleOnlyKeeps(rule, body, false, false, line);
        SplitOnlyKeeps(rest, saved, active, line);
        PiecesOf(text[0], rule.Kept(body, false), rule.Moved(body, false, false), split, line);
        if line == text[0] || line in body || line in rest {
          LineOfPart(text, line);
        }
      } else {
        SplitOnlyKeeps(text[1..], saved, active, line);
      }
    }
  }

  lemma PiecesOf(header: Line, kept: Text, moved: Text, rest: Divided, line: Line)
    ensures line in ([header] + kept + rest.hardware) + (Fragment(header, moved) + rest.calibration) ==>
      line == header || line in kept + moved || line in rest.hardware + rest.calibration
  {
  }

  lemma LineOfPart(text: Text, line: Line)
    requires text != [] && (line == text[0] || line in TakeBody(text[1..]) || line in DropBody(text[1..]))
    ensures line in text
  {
  }

  lemma {:induction false} RuleOnlyKeeps(rule: Rule, body: Text, moving: bool, retain: bool, line: Line)
    ensures line in rule.Kept(body, moving) + rule.Moved(body, moving, retain) ==> line in body
    decreases |body|
  {
    if body != [] {
      RuleOnlyKeeps(rule, body[1..], rule.Moving(moving, body[0]), rule.Retaining(retain, body[0]), line);
    }
  }

  /** The plan is as the reconciliation of the root needs it. */
  lemma PlanIsClean(text: Text, includes: Text, saved: SectionOptions, active: SectionOptions, macros: bool, inline: bool)
    requires OwnText(text, includes) && PlanOf(text, includes, saved, active, macros, inline).Success?
    ensures Managed.Clean(PlanOf(text, includes, saved, active, macros, inline).value.plan)
  {
    hide Trimmed, Split;
    var plan := PlanOf(text, includes, saved, active, macros, inline).value.plan;
    forall line | line in plan.generated + plan.calibration ensures line in text {
      if inline {
        TrimmedOnlyKeeps(text, saved, active, line);
      } else {
        SplitOnlyKeeps(text, saved, active, line);
      }
    }
  }

  /**
    What SAVE_CONFIG holds and neither the hardware file nor the root sets stays effective: the planned
    root does not set it, and beside an include neither does the hardware file, except exactly where a
    line of the option is overlooked.
   */
  lemma SavedStaysEffective(text: Text, includes: Text, saved: SectionOptions, active: SectionOptions, macros: bool,
                            inline: bool, root: Text, macrosAbsent: bool, id: SectionId, key: string)
    requires OwnText(text, includes) && PlanOf(text, includes, saved, active, macros, inline).Success?
    requires var plan := PlanOf(text, includes, saved, active, macros, inline).value.plan;
      Managed.PlanRoot(root, macrosAbsent, plan).Success? && QuietBehind(Managed.Prepared(root, macrosAbsent), plan, id)
    requires id in Managed.HeaderIds(text) && key in At(saved, id) && key !in At(active, id)
    ensures var planned := PlanOf(text, includes, saved, active, macros, inline).value;
      var head := Managed.Head(Managed.PlanRoot(root, macrosAbsent, planned.plan).value);
      && (inline ==> (key in At(OptionsOf(head), id) <==> RemainsIn(text, saved, active, id, key)))
      && (!inline ==> key !in At(OptionsOf(head), id))
      && (!inline ==> (key in At(OptionsOf(planned.hardware), id) <==> EscapesIn(text, saved, active, id, key)))
  {
    hide Trimmed, Split, OptionsOf, Managed.Reconcile, Managed.Malformed, Managed.Prepared, Managed.Head, Managed.Saved,
      Managed.Clean, QuietBehind;
    var planned := PlanOf(text, includes, saved, active, macros, inline).value;
    var existing := Managed.Prepared(root, macrosAbsent);
    PlanIsClean(text, includes, saved, active, macros, inline);
    Managed.NotMalformed(existing, planned.plan);
    Managed.SavedTextIsUntouched(root, macrosAbsent, planned.plan);
    RootSetsQuietly(existing, planned.plan, id);
    var reconciled := Managed.Reconcile(existing, planned.plan).value;
    LineBefore(Managed.LAYOUT, reconciled);
    assert [] + reconciled == reconciled;
    if inline {
      SavedIsTrimmed(text, saved, active, id, key);
    } else {
      SavedIsNotSet(text, saved, active, id, key);
    }
  }

  /** Nothing is overlooked when the lines of the option stand at the first column under a plain name. */
  lemma {:induction false} NothingRemains(text: Text, saved: SectionOptions, active: SectionOptions, id: SectionId, key: string)
    requires PlainLines(text, key)
    ensures !RemainsIn(text, saved, active, id, key)
    decreases |text|
  {
    if text != [] {
      if text[0].Header? {
        TakenHeaderless(text[1..]);
        NoLineRemains(Removed(saved, active, id), NOTHING, TakeBody(text[1..]), key);
        NothingRemains(DropBody(text[1..]), saved, active, id, key);
      } else {
        NothingRemains(text[1..], saved, active, id, key);
      }
    }
  }

  lemma {:induction false} NoLineRemains(removed: set<string>, r: Reading, body: Text, key: string)
    requires PlainLines(body, key)
    ensures !Remains(removed, r, body, key)
    decreases |body|
  {
    if body != [] {
      NoLineRemains(removed, r, body[1..], key);
      NoLineRemains(removed, Feed(r, body[0]), body[1..], key);
    }
  }

  // ----- tidy sections -----

  /** Each option starts at the first column under a plain name, and its further lines follow it directly. */
  predicate Tidy(body: Text, open: bool)
    decreases |body|
  {
    if body == [] then true
    else
      var line := body[0];
      if Starts(line) then Tidy(body[1..], true)
      else if line.Setting? || line.Words? then open && line.indent > 0 && Tidy(body[1..], open)
      else Tidy(body[1..], open && Indented(line))
  }

  /** The reading of a tidy section, and those of its kept and of its moved lines, agree on `key`. */
  predicate Divides(rule: Rule, open: bool, moving: bool, retain: bool, r: Reading, kept: Reading, moved: Reading, key: string) {
    && Got(kept.options, key) == (if key in rule.names then None else Got(r.options, key))
    && Got(moved.options, key) == (if key in rule.names && rule.Retains(key) then Got(r.options, key) else None)
    && (open ==> r.previous.Some? && r.indent == 0 && (moving <==> r.previous.value in rule.names))
    && (open && moving ==> retain == rule.Retains(r.previous.value))
    && (open && !moving ==> kept.previous == r.previous && kept.indent == 0)
    && (open && moving && retain ==> moved.previous == r.previous && moved.indent == 0)
    && (!open ==> !moving)
  }

  /** Whether further lines may follow. */
  function Open(open: bool, line: Line): bool {
    Starts(line) || (open && (line.Setting? || line.Words? || Indented(line)))
  }

  lemma DivideLine(rule: Rule, open: bool, moving: bool, retain: bool, r: Reading, kept: Reading, moved: Reading,
                   line: Line, key: string)
    requires Divides(rule, open, moving, retain, r, kept, moved, key) && !line.Header?
    requires !Starts(line) && (line.Setting? || line.Words?) ==> open && line.indent > 0
    ensures var now, still := rule.Moving(moving, line), rule.Retaining(retain, line);
      Divides(rule, Open(open, line), now, still, Feed(r, line), if now then kept else Feed(kept, line),
              if now && still then Feed(moved, line) else moved, key)
  {
    hide Rule.Retains, PlainName, Raw;
  }

  /** In a tidy section the kept lines set what does not move, and the moved lines what moves and stays. */
  lemma {:induction false} DivideReads(rule: Rule, open: bool, moving: bool, retain: bool, r: Reading, kept: Reading,
                                       moved: Reading, body: Text, key: string)
    requires Divides(rule, open, moving, retain, r, kept, moved, key) && Tidy(body, open) && Headerless(body)
    ensures var all := Got(Read(r, body).options, key);
      && Got(Read(kept, rule.Kept(body, moving)).options, key) == (if key in rule.names then None else all)
      && Got(Read(moved, rule.Moved(body, moving, retain)).options, key) ==
         (if key in rule.names && rule.Retains(key) then all else None)
    decreases |body|
  {
    hide Rule.Retains, PlainName, Feed;
    if body != [] {
      var line := body[0];
      var now, still := rule.Moving(moving, line), rule.Retaining(retain, line);
      DivideLine(rule, open, moving, retain, r, kept, moved, line, key);
      var k1, m1 := if now then kept else Feed(kept, line), if now && still then Feed(moved, line) else moved;
      DivideReads(rule, Open(open, line), now, still, Feed(r, line), k1, m1, body[1..], key);
      ReadFirst(kept, line, rule.Kept(body[1..], now), now);
      ReadFirst(moved, line, rule.Moved(body[1..], now, still), !(now && still));
    }
  }

  lemma ReadFirst(r: Reading, line: Line, rest: Text, dropped: bool)
    ensures Read(r, (if dropped then [] else [line]) + rest) == Read(if dropped then r else Feed(r, line), rest)
  {
    if dropped {
      assert [] + rest == rest;
    } else {
      assert ([line] + rest)[1..] == rest;
    }
  }

  lemma TidyDivided(rule: Rule, body: Text, key: string)
    requires Tidy(body, false) && Headerless(body)
    ensures Got(BodyOptions(rule.Kept(body, false)), key) == if key in rule.names then None else Got(BodyOptions(body), key)
    ensures Got(BodyOptions(rule.Moved(body, false, false)), key) ==
      if key in rule.names && rule.Retains(key) then Got(BodyOptions(body), key) else None
  {
    DivideReads(rule, false, false, false, NOTHING, NOTHING, NOTHING, body, key);
  }

  /** Of a section that occurs once, the hardware file and the root have the kept and the moved lines. */
  lemma {:induction false} SplitOne(text: Text, saved: SectionOptions, active: SectionOptions, id: SectionId)
    requires Split(text, saved, active).Success? && Count(text, id) == 1
    ensures Headerless(Body(text, id)) && RuleOf(id, Body(text, id), saved, active).Success?
    ensures var rule, split := RuleOf(id, Body(text, id), saved, active).value, Split(text, saved, active).value;
      && At(OptionsOf(split.hardware), id) == BodyOptions(rule.Kept(Body(text, id), false))
      && At(OptionsOf(split.calibration), id) == BodyOptions(rule.Moved(Body(text, id), false, false))
    decreases |text|
  {
    hide BodyOptions, Merge, RuleOf, Over;
    if text[0].Header? {
      var body, rest := TakeBody(text[1..]), DropBody(text[1..]);
      TakenHeaderless(text[1..]);
      SkipLines(body, rest, id);
      SplitStarts(rest, saved, active);
      var rule, split := RuleOf(text[0].id, body, saved, active).value, Split(rest, saved, active).value;
      KeptHasNoHeader(rule, body, false, false);
      OneSection(text[0], rule.Kept(body, false), split.hardware, id);
      FragmentOptions(text[0], rule.Moved(body, false, false), split.calibration, id);
      if text[0].id == id {
        SplitWithout(rest, saved, active, id);
        OverLaws(BodyOptions(rule.Kept(body, false)), map[], map[]);
        OverLaws(BodyOptions(rule.Moved(body, false, false)), map[], map[]);
      } else {
        SplitOne(rest, saved, active, id);
        OverLaws(At(OptionsOf(split.hardware), id), map[], map[]);
        OverLaws(At(OptionsOf(split.calibration), id), map[], map[]);
      }
    } else {
      SplitOne(text[1..], saved, active, id);
      LineBefore(text[0], Split(text[1..], saved, active).value.hardware);
    }
  }

  lemma {:induction false} NotCounted(text: Text, id: SectionId)
    requires Count(text, id) == 0
    ensures Without(text, id)
    decreases |text|
  {
    if text != [] {
      NotCounted(text[1..], id);
    }
  }

  lemma SplitWithout(text: Text, saved: SectionOptions, active: SectionOptions, id: SectionId)
    requires Split(text, saved, active).Success? && Count(text, id) == 0
    ensures var split := Split(text, saved, active).value;
      At(OptionsOf(split.hardware), id) == map[] && At(OptionsOf(split.calibration), id) == map[]
  {
    hide Split, OptionsOf;
    NotCounted(text, id);
    var split := Split(text, saved, active).value;
    forall line | line in split.hardware + split.calibration ensures !Is(line, id) {
      SplitOnlyKeeps(text, saved, active, line);
    }
    NotThere(split.hardware, id);
    NotThere(split.calibration, id);
  }

  /** Of a section that occurs once, the root layout has the trimmed lines. */
  lemma {:induction false} TrimOne(text: Text, saved: SectionOptions, active: SectionOptions, id: SectionId)
    requires Count(text, id) == 1
    ensures At(OptionsOf(Trimmed(text, saved, active)), id) ==
      BodyOptions(TrimBody(Body(text, id), Removed(saved, active, id)))
    decreases |text|
  {
    hide BodyOptions, Merge, Over;
    if text[0].Header? {
      var body, rest := TakeBody(text[1..]), DropBody(text[1..]);
      var removed := Removed(saved, active, text[0].id);
      TakenHeaderless(text[1..]);
      SkipLines(body, rest, id);
      TrimmedStarts(rest, saved, active);
      TrimHasNoHeader(body, removed);
      OneSection(text[0], TrimBody(body, removed), Trimmed(rest, saved, active), id);
      if text[0].id == id {
        TrimWithout(rest, saved, active, id);
        OverLaws(BodyOptions(TrimBody(body, removed)), map[], map[]);
      } else {
        TrimOne(rest, saved, active, id);
        OverLaws(At(OptionsOf(Trimmed(rest, saved, active)), id), map[], map[]);
      }
    } else {
      TrimOne(text[1..], saved, active, id);
      LineBefore(text[0], Trimmed(text[1..], saved, active));
    }
  }

  lemma TrimWithout(text: Text, saved: SectionOptions, active: SectionOptions, id: SectionId)
    requires Count(text, id) == 0
    ensures At(OptionsOf(Trimmed(text, saved, active)), id) == map[]
  {
    hide Trimmed, OptionsOf;
    NotCounted(text, id);
    forall line | line in Trimmed(text, saved, active) ensures !Is(line, id) {
      TrimmedOnlyKeeps(text, saved, active, line);
    }
    NotThere(Trimmed(text, saved, active), id);
  }

  // ----- what Klipper must be able to save, option by option -----

  /** Klipper saves this option of this section, or has saved it. */
  predicate Writable(id: SectionId, options: Options, saved: Options, key: string) {
    || key in saved
    || (id.Named?
        && match key
           case "control" => IsHeater(id.name)
           case "z_offset" => id.name == "probe" || id.name == "bltouch" || "probe " <= id.name
           case "position_endstop" => "stepper_" <= id.name
           case _ =>
             || (IsHeater(id.name) && "control" in options && Fold(options["control"]) == "pid"
                 && (key == "pid_kp" || key == "pid_ki" || key == "pid_kd"))
             || (id.name == "input_shaper"
                 && (key == "shaper_freq_x" || key == "shaper_freq_y" || key == "shaper_type_x" || key == "shaper_type_y")))
  }

  predicate IsHeater(name: string) {
    name == "extruder" || name == "heater_bed" || "heater_generic " <= name
  }

  /** A saved heater calibration that the control mode has no use for. */
  predicate SavedInVain(id: SectionId, options: Options, saved: Options) {
    && id.Named? && IsHeater(id.name) && !("control" in options && Fold(options["control"]) == "pid")
    && ("control" in saved || "pid_kp" in saved || "pid_ki" in saved || "pid_kd" in saved)
  }

  lemma NamesMean(id: SectionId, options: Options, saved: Options)
    ensures Names(id, options, saved).Failure? <==> SavedInVain(id, options, saved)
    ensures Names(id, options, saved).Success? ==>
      forall key :: key in Names(id, options, saved).value <==> Writable(id, options, saved, key)
  {
    hide Fold;
    SavedCalibration(saved);
  }

  lemma SavedCalibration(saved: Options)
    ensures saved.Keys * (PID + {"control"}) != {} <==>
      "control" in saved || "pid_kp" in saved || "pid_ki" in saved || "pid_kd" in saved
  {
    assert forall key :: key in PID + {"control"} <==>
      key == "control" || key == "pid_kp" || key == "pid_ki" || key == "pid_kd";
    forall key | key in {"control", "pid_kp", "pid_ki", "pid_kd"} && key in saved
      ensures saved.Keys * (PID + {"control"}) != {}
    {
      assert key in saved.Keys * (PID + {"control"});
    }
  }

  /**
    The division of a tidy section: refused exactly when a saved heater calibration does not fit the control
    mode; otherwise the hardware file sets what Klipper does not save, and the root sets the rest, but for
    what is saved and not set alike in the installed files.
   */
  lemma SectionDivides(id: SectionId, body: Text, saved: SectionOptions, active: SectionOptions, key: string)
    requires Tidy(body, false) && Headerless(body)
    ensures RuleOf(id, body, saved, active).Failure? <==> SavedInVain(id, BodyOptions(body), At(saved, id))
    ensures RuleOf(id, body, saved, active).Success? ==>
      var rule, options := RuleOf(id, body, saved, active).value, BodyOptions(body);
      var writable := Writable(id, options, At(saved, id), key);
      && Got(BodyOptions(rule.Kept(body, false)), key) == (if writable then None else Got(options, key))
      && Got(BodyOptions(rule.Moved(body, false, false)), key) ==
           if writable && (key !in At(saved, id) || (key in At(active, id) && Got(options, key) == Some(At(active, id)[key])))
           then Got(options, key) else None
  {
    hide Names, Writable, SavedInVain, Tidy;
    NamesMean(id, BodyOptions(body), At(saved, id));
    if RuleOf(id, body, saved, active).Success? {
      TidyDivided(RuleOf(id, body, saved, active).value, body, key);
    }
  }

  /** The plan owns exactly the sections that are generated, and passes on what it was given. */
  lemma PlanOwnsWhatIsGenerated(text: Text, includes: Text, saved: SectionOptions, active: SectionOptions, macros: bool, inline: bool)
    requires PlanOf(text, includes, saved, active, macros, inline).Success?
    ensures var plan := PlanOf(text, includes, saved, active, macros, inline).value.plan;
      && plan.includes == includes && plan.macros == macros && plan.inline == inline
      && forall id :: id in plan.owned <==> exists line :: line in text && line.Header? && line.id == id
  {
  }
}

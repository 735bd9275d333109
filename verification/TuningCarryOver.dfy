/** Carrying the tuning a user made over into a newly generated configuration. */
module TuningCarryOver {
  import opened Prelude
  import opened ConfigText

  // ----- setting an option of a section in a text -----

  predicate Is(line: Line, id: SectionId) {
    line.Header? && line.id == id
  }

  function Count(text: Text, id: SectionId): nat {
    if text == [] then 0 else (if Is(text[0], id) then 1 else 0) + Count(text[1..], id)
  }

  /** The lines of the first section of that identity. */
  function Body(text: Text, id: SectionId): Text {
    if text == [] then [] else if Is(text[0], id) then TakeBody(text[1..]) else Body(text[1..], id)
  }

  /** Sets the option in the first section of that identity, if there is one. */
  function Put(text: Text, id: SectionId, key: string, value: string): Text {
    if text == [] then []
    else if Is(text[0], id) then [text[0]] + PutBody(TakeBody(text[1..]), key, value) + DropBody(text[1..])
    else [text[0]] + Put(text[1..], id, key, value)
  }

  function Headers(text: Text): seq<Line> {
    if text == [] then [] else (if text[0].Header? then [text[0]] else []) + Headers(text[1..])
  }

  lemma PutBodyHasNoHeader(body: Text, key: string, value: string)
    requires Headerless(body)
    ensures Headerless(PutBody(body, key, value))
  {
  }

  lemma TakenHeaderless(text: Text)
    ensures Headerless(TakeBody(text)) && StartsSection(DropBody(text))
    ensures text == TakeBody(text) + DropBody(text)
  {
  }

  lemma {:induction false} SkipLines(body: Text, rest: Text, id: SectionId)
    requires Headerless(body)
    ensures Body(body + rest, id) == Body(rest, id) && Count(body + rest, id) == Count(rest, id)
    ensures Headers(body + rest) == Headers(rest)
    decreases |body|
  {
    if body == [] {
      assert body + rest == rest;
    } else {
      assert (body + rest)[1..] == body[1..] + rest;
      SkipLines(body[1..], rest, id);
    }
  }

  /** The edited section and what follows it. */
  lemma PutHere(text: Text, id: SectionId, key: string, value: string)
    requires text != [] && Is(text[0], id)
    ensures var put := PutBody(TakeBody(text[1..]), key, value);
      && Headerless(put) && Put(text, id, key, value)[1..] == put + DropBody(text[1..])
      && TakeBody(Put(text, id, key, value)[1..]) == put
      && text[1..] == TakeBody(text[1..]) + DropBody(text[1..])
  {
    hide PutBody, Headerless, TakeBody, DropBody;
    var body, rest := TakeBody(text[1..]), DropBody(text[1..]);
    TakenHeaderless(text[1..]);
    PutBodyHasNoHeader(body, key, value);
    var put := PutBody(body, key, value);
    TakeBodyAppend(put, rest);
    assert ([text[0]] + put + rest)[1..] == put + rest;
  }

  lemma {:induction false} PutTakes(text: Text, id: SectionId, key: string, value: string)
    ensures TakeBody(Put(text, id, key, value)) == TakeBody(text)
    decreases |text|
  {
    if text != [] && !Is(text[0], id) {
      assert Put(text, id, key, value)[1..] == Put(text[1..], id, key, value);
      PutTakes(text[1..], id, key, value);
    }
  }

  /** The edit changes one body: the headers, and the bodies of all other sections, are as before. */
  lemma {:induction false} PutShape(text: Text, id: SectionId, key: string, value: string, other: SectionId)
    ensures var put := Put(text, id, key, value);
      && Headers(put) == Headers(text) && Count(put, other) == Count(text, other)
      && (other != id ==> Body(put, other) == Body(text, other))
      && (Count(text, id) > 0 ==> Body(put, id) == PutBody(Body(text, id), key, value))
    decreases |text|
  {
    hide PutBody, TakeBody, DropBody, Headerless;
    var put := Put(text, id, key, value);
    if text != [] {
      if Is(text[0], id) {
        PutHere(text, id, key, value);
        TakenHeaderless(text[1..]);
        SkipLines(TakeBody(text[1..]), DropBody(text[1..]), other);
        SkipLines(PutBody(TakeBody(text[1..]), key, value), DropBody(text[1..]), other);
      } else {
        assert put[1..] == Put(text[1..], id, key, value);
        PutShape(text[1..], id, key, value, other);
        PutTakes(text[1..], id, key, value);
      }
    }
  }

  lemma {:induction false} AbsentSection(text: Text, id: SectionId)
    ensures id in OptionsOf(text) <==> Count(text, id) > 0
    decreases |text|
  {
    if text != [] {
      AbsentSection(text[1..], id);
    }
  }

  lemma MergeUpdate(a: SectionOptions, b: SectionOptions, id: SectionId, o: Options)
    requires id !in a
    ensures Merge(a, b[id := o]) == Merge(a, b)[id := o]
  {
    hide Over;
    var left, right := Merge(a, b[id := o]), Merge(a, b)[id := o];
    assert left.Keys == right.Keys;
    forall s | s in left ensures left[s] == right[s] {
      if s == id {
        OverLaws(o, map[], map[]);
      } else {
        assert At(b[id := o], s) == At(b, s);
      }
    }
  }

  lemma MergeHead(b: SectionOptions, id: SectionId, o: Options)
    requires id !in b
    ensures Merge(map[id := o], b) == b[id := o]
  {
    hide Over;
    var merged := Merge(map[id := o], b);
    assert merged.Keys == b[id := o].Keys;
    forall s | s in merged ensures merged[s] == b[id := o][s] {
      OverLaws(if s == id then o else b[s], map[], map[]);
    }
  }

  /** Get after put: the new value is read back, and every other option of every section is as before. */
  lemma {:induction false} PutLaw(text: Text, id: SectionId, key: string, value: string)
    requires Count(text, id) == 1 && Settable(Body(text, id), key)
    ensures id in OptionsOf(text)
    ensures OptionsOf(Put(text, id, key, value)) == OptionsOf(text)[id := OptionsOf(text)[id][key := value]]
    decreases |text|
  {
    hide Merge, BodyOptions, PutBody, Settable, TakeBody, DropBody, Headerless;
    AbsentSection(text, id);
    var put := Put(text, id, key, value);
    if Is(text[0], id) {
      var body := TakeBody(text[1..]);
      PutHere(text, id, key, value);
      TakenHeaderless(text[1..]);
      PutBodyLaw(body, key, value);
      SkipHeaderless(body, DropBody(text[1..]));
      SkipHeaderless(PutBody(body, key, value), DropBody(text[1..]));
      AbsentSection(text[1..], id);
      MergeHead(OptionsOf(text[1..]), id, BodyOptions(body));
      MergeHead(OptionsOf(text[1..]), id, BodyOptions(PutBody(body, key, value)));
    } else {
      assert put[1..] == Put(text[1..], id, key, value);
      PutLaw(text[1..], id, key, value);
      if text[0].Header? {
        PutTakes(text[1..], id, key, value);
        UpdateAfter(map[text[0].id := BodyOptions(TakeBody(text[1..]))], OptionsOf(text[1..]), id, key, value);
      }
    }
  }

  lemma UpdateAfter(a: SectionOptions, b: SectionOptions, id: SectionId, key: string, value: string)
    requires id in b && id !in a
    ensures Merge(a, b[id := b[id][key := value]]) == Merge(a, b)[id := Merge(a, b)[id][key := value]]
  {
    OverLaws(b[id], map[], map[]);
    MergeUpdate(a, b, id, b[id][key := value]);
  }

  /** Two bodies whose lines differ in values only. */
  predicate SameShape(a: Text, b: Text) {
    |a| == |b| && forall i :: 0 <= i < |a| ==>
      a[i] == b[i] || (a[i].Setting? && b[i].Setting? && a[i].indent == b[i].indent && a[i].key == b[i].key)
  }

  lemma {:induction false} ShapeReads(r: Reading, q: Reading, a: Text, b: Text, key: string)
    requires SameShape(a, b) && q.previous == r.previous && q.indent == r.indent
    ensures Read(q, b).previous == Read(r, a).previous && Read(q, b).indent == Read(r, a).indent
    ensures Untouched(q, b, key) == Untouched(r, a, key)
    decreases |a|
  {
    if a != [] {
      ShapeReads(Feed(r, a[0]), Feed(q, b[0]), a[1..], b[1..], key);
    }
  }

  lemma ShapeSettable(a: Text, b: Text, key: string)
    requires SameShape(a, b) && Settable(a, key)
    ensures Settable(b, key)
  {
    var i := FirstKey(a, key);
    assert FirstKey(b, key) == i;
    if i < |a| {
      ShapeReads(NOTHING, NOTHING, a[..i], b[..i], key);
      ShapeReads(NOTHING, NOTHING, a[..i + 1], b[..i + 1], key);
      ShapeReads(Read(NOTHING, a[..i + 1]), Read(NOTHING, b[..i + 1]), a[i + 1..], b[i + 1..], key);
    }
  }

  lemma {:induction false} UntouchedAppend(r: Reading, body: Text, line: Line, key: string)
    requires Untouched(r, body, key) && line.Setting? && line.indent == 0 && line.key != key
    ensures Untouched(r, body + [line], key)
    decreases |body|
  {
    if body == [] {
      assert Untouched(Feed(r, line), [], key);
      assert ([] + [line])[1..] == [];
    } else {
      assert (body + [line])[1..] == body[1..] + [line];
      UntouchedAppend(Feed(r, body[0]), body[1..], line, key);
    }
  }

  lemma KeyAt(body: Text, key: string, i: nat)
    requires i <= |body| && (i < |body| ==> body[i].Setting? && body[i].key == key)
    requires forall j :: 0 <= j < i ==> !(body[j].Setting? && body[j].key == key)
    ensures FirstKey(body, key) == i
  {
  }

  /** Setting one option leaves it possible to set another. */
  lemma StillSettable(body: Text, key: string, value: string, other: string)
    requires Settable(body, other) && key != other
    ensures Settable(PutBody(body, key, value), other)
  {
    var put := PutBody(body, key, value);
    var i, j := FirstKey(body, key), FirstKey(body, other);
    if i < |body| {
      ShapeSettable(body, put, other);
    } else if j < |body| {
      KeyAt(put, other, j);
      assert put[..j] == body[..j] && put[..j + 1] == body[..j + 1];
      assert put[j + 1..] == body[j + 1..] + [Inserted(key, value)];
      UntouchedAppend(Read(NOTHING, body[..j + 1]), body[j + 1..], Inserted(key, value), other);
    } else {
      KeyAt(put, other, |put|);
    }
  }

  lemma {:induction false} PutAfter(before: Text, rest: Text, id: SectionId, key: string, value: string)
    requires forall i :: 0 <= i < |before| ==> !Is(before[i], id)
    ensures Put(before + rest, id, key, value) == before + Put(rest, id, key, value)
    decreases |before|
  {
    hide PutBody, TakeBody;
    if before == [] {
      assert before + rest == rest;
      assert [] + Put(rest, id, key, value) == Put(rest, id, key, value);
    } else {
      assert (before + rest)[1..] == before[1..] + rest;
      PutAfter(before[1..], rest, id, key, value);
      assert before == [before[0]] + before[1..];
    }
  }

  lemma PutSplice(before: Text, header: Line, body: Text, after: Text, id: SectionId, key: string, value: string)
    requires (forall i :: 0 <= i < |before| ==> !Is(before[i], id)) && Is(header, id)
    requires Headerless(body) && StartsSection(after)
    ensures Put(before + ([header] + body + after), id, key, value)
      == before + ([header] + PutBody(body, key, value) + after)
  {
    hide PutBody;
    var rest := [header] + body + after;
    PutAfter(before, rest, id, key, value);
    TakeBodyAppend(body, after);
    assert rest[1..] == body + after;
  }

  /** `_replace_or_insert_option`. */
  method ReplaceOrInsertOption(text: Text, id: SectionId, key: string, value: string) returns (result: Text)
    ensures result == Put(text, id, key, value)
  {
    hide Put, PutBody;
    var start := 0;
    while start < |text| && !Is(text[start], id)
      invariant start <= |text|
      invariant forall i :: 0 <= i < start ==> !Is(text[i], id)
    {
      start := start + 1;
    }
    if start == |text| {
      NothingToPut(text, id, key, value);
      return text;
    }
    var end := start + 1;
    while end < |text| && !text[end].Header?
      invariant start < end <= |text| && forall i :: start < i < end ==> !text[i].Header?
    {
      end := end + 1;
    }
    var body := text[start + 1..end];
    assert text == text[..start] + ([text[start]] + body + text[end..]);
    PutSplice(text[..start], text[start], body, text[end..], id, key, value);
    var replacement := ReplaceOrInsertLine(body, key, value);
    result := text[..start] + ([text[start]] + replacement + text[end..]);
  }

  method ReplaceOrInsertLine(body: Text, key: string, value: string) returns (result: Text)
    ensures result == PutBody(body, key, value)
  {
    var at := 0;
    while at < |body| && !(body[at].Setting? && body[at].key == key)
      invariant at <= |body|
      invariant forall j :: 0 <= j < at ==> !(body[j].Setting? && body[j].key == key)
    {
      at := at + 1;
    }
    KeyAt(body, key, at);
    result := if at < |body| then body[at := body[at].(value := value)] else body + [Inserted(key, value)];
  }

  lemma NothingToPut(text: Text, id: SectionId, key: string, value: string)
    requires forall i :: 0 <= i < |text| ==> !Is(text[i], id)
    ensures Put(text, id, key, value) == text
  {
    PutAfter(text, [], id, key, value);
    assert text + [] == text;
  }

  // ----- which options are carried over -----

  predicate StartsWith(name: string, prefix: string) {
    prefix <= name
  }

  /** The calibration values of a section that a new generation must not reset, by its folded name. */
  function PreservedOptions(name: string): set<string> {
    match name
    case "printer" => {"max_velocity", "max_accel", "max_z_velocity", "max_z_accel", "square_corner_velocity",
                       "minimum_cruise_ratio"}
    case "extruder" => {"pid_kp", "pid_ki", "pid_kd", "pressure_advance", "pressure_advance_smooth_time",
                        "nozzle_diameter", "filament_diameter", "rotation_distance", "gear_ratio", "microsteps",
                        "max_extrude_only_distance", "max_extrude_only_velocity", "max_extrude_only_accel",
                        "instantaneous_corner_velocity", "min_extrude_temp", "smooth_time"}
    case "heater_bed" => {"pid_kp", "pid_ki", "pid_kd"}
    case "force_move" => {"enable_force_move"}
    case "probe" => {"z_offset"}
    case "bltouch" => {"z_offset"}
    case "bed_mesh" => {"horizontal_move_z", "probe_count", "algorithm", "mesh_pps", "bicubic_tension"}
    case "input_shaper" => {"shaper_freq_x", "shaper_freq_y", "shaper_type_x", "shaper_type_y"}
    case _ => {}
  }

  function PreservedByPrefix(name: string): set<string> {
    (if StartsWith(name, "stepper_")
     then {"microsteps", "rotation_distance", "gear_ratio", "homing_speed", "position_endstop"} else {})
    + (if StartsWith(name, "tmc") then {"run_current", "hold_current", "stealthchop_threshold", "interpolate"} else {})
  }

  function PreservedNames(section: string): set<string> {
    PreservedOptions(Fold(section)) + PreservedByPrefix(Fold(section))
  }

  function NamesOf(id: SectionId): set<string> {
    if id.Named? then PreservedNames(id.name) else {}
  }

  /** PID values are of use to PID control only. */
  predicate ForeignControl(id: SectionId, key: string, generated: Options) {
    && id in {Named("extruder"), Named("heater_bed")} && StartsWith(key, "pid_")
    && !("control" in generated && Fold(generated["control"]) == "pid")
  }

  predicate Carried(user: SectionOptions, generated: SectionOptions, id: SectionId, key: string) {
    && id in user && id in generated && key in user[id]
    && (key in NamesOf(id) || key !in generated[id])
    && !ForeignControl(id, key, generated[id])
  }

  // ----- the same, asked of one option -----

  predicate PidHeater(id: SectionId) {
    id == Named("extruder") || id == Named("heater_bed")
  }

  /** A calibration value of a section with this folded name, which a new generation must not reset. */
  predicate Calibrates(section: string, key: string) {
    MachineValue(section, key) || ExtruderValue(section, key) || AxisValue(section, key)
  }

  predicate MachineValue(section: string, key: string) {
    || (section == "printer" && (key in {"max_velocity", "max_accel", "max_z_velocity", "max_z_accel"}
                                 || key in {"square_corner_velocity", "minimum_cruise_ratio"}))
    || (section == "force_move" && key == "enable_force_move")
    || ((section == "probe" || section == "bltouch") && key == "z_offset")
    || (section == "bed_mesh" && key in {"horizontal_move_z", "probe_count", "algorithm", "mesh_pps", "bicubic_tension"})
    || (section == "input_shaper" && key in {"shaper_freq_x", "shaper_freq_y", "shaper_type_x", "shaper_type_y"})
  }

  predicate ExtruderValue(section: string, key: string) {
    || ((section == "extruder" || section == "heater_bed") && key in {"pid_kp", "pid_ki", "pid_kd"})
    || (section == "extruder"
        && (key in {"pressure_advance", "pressure_advance_smooth_time", "smooth_time", "min_extrude_temp"}
            || key in {"nozzle_diameter", "filament_diameter", "rotation_distance", "gear_ratio", "microsteps"}
            || key in {"max_extrude_only_distance", "max_extrude_only_velocity", "max_extrude_only_accel",
                       "instantaneous_corner_velocity"}))
  }

  predicate AxisValue(section: string, key: string) {
    || ("stepper_" <= section && key in {"microsteps", "rotation_distance", "gear_ratio", "homing_speed", "position_endstop"})
    || ("tmc" <= section && key in {"run_current", "hold_current", "stealthchop_threshold", "interpolate"})
  }

  lemma CalibrationNames(section: string, key: string)
    ensures key in PreservedNames(section) <==> Calibrates(Fold(section), key)
  {
    hide Fold, PreservedOptions, PreservedByPrefix, MachineValue, ExtruderValue, AxisValue;
    OptionNames(Fold(section), key);
    PrefixNames(Fold(section), key);
  }

  lemma OptionNames(name: string, key: string)
    ensures key in PreservedOptions(name) <==> MachineValue(name, key) || ExtruderValue(name, key)
  {
    hide PreservedOptions, MachineValue, ExtruderValue;
    if name == "extruder" || name == "heater_bed" {
      HeaterNames(name, key);
    } else {
      MachineNames(name, key);
    }
  }

  lemma HeaterNames(name: string, key: string)
    requires name == "extruder" || name == "heater_bed"
    ensures (key in PreservedOptions(name) <==> ExtruderValue(name, key)) && !MachineValue(name, key)
  {
  }

  lemma MachineNames(name: string, key: string)
    requires name != "extruder" && name != "heater_bed"
    ensures (key in PreservedOptions(name) <==> MachineValue(name, key)) && !ExtruderValue(name, key)
  {
  }

  lemma PrefixNames(name: string, key: string)
    ensures key in PreservedByPrefix(name) <==> AxisValue(name, key)
  {
  }

  /**
    What becomes of one option of a section that is generated: `got` is its value in the result.  A PID
    value of a heater is the user's under PID control only; any other option is the user's when it is a
    calibration value or not generated at all, and the generated one otherwise.
   */
  ghost predicate Decided(got: Option<string>, user: Options, generated: Options, id: SectionId, key: string) {
    var pid := "control" in generated && Fold(generated["control"]) == "pid";
    && (key !in user ==> got == Got(generated, key))
    && (PidHeater(id) && key in {"pid_kp", "pid_ki", "pid_kd"} && key in user ==>
          got == if pid then Some(user[key]) else Got(generated, key))
    && (PidHeater(id) && "pid_" <= key && !pid ==> got == Got(generated, key))
    && (key in user && key !in generated && !(PidHeater(id) && "pid_" <= key) ==> got == Some(user[key]))
    && (key in user && id.Named? && Calibrates(Fold(id.name), key) && !(PidHeater(id) && "pid_" <= key) ==> got == Some(user[key]))
    && (key in generated && (id.Include? || !Calibrates(Fold(id.name), key)) ==> got == Some(generated[key]))
  }

  function CarriedPairs(user: SectionOptions, generated: SectionOptions): set<(SectionId, string)> {
    set id, key | id in user && key in user[id] && Carried(user, generated, id, key) :: (id, key)
  }

  function Chosen(user: SectionOptions, id: SectionId, pairs: set<(SectionId, string)>): Options {
    map key | key in At(user, id) && (id, key) in pairs :: At(user, id)[key]
  }

  /** The generated options under those of the user that are carried over. */
  function WithPairs(user: SectionOptions, generated: SectionOptions, pairs: set<(SectionId, string)>): SectionOptions {
    map id | id in generated :: Over(generated[id], Chosen(user, id, pairs))
  }

  function WithTuning(user: SectionOptions, generated: SectionOptions): SectionOptions {
    WithPairs(user, generated, CarriedPairs(user, generated))
  }

  /** The generated text lets every carried option be set, and its value is one line. */
  predicate Tunable(generated: Text, user: SectionOptions, id: SectionId, key: string) {
    && Count(generated, id) == 1 && Settable(Body(generated, id), key)
    && id in user && key in user[id] && SingleLine(user[id][key])
  }

  ghost predicate AllTunable(generated: Text, user: SectionOptions, pairs: set<(SectionId, string)>) {
    forall p :: p in pairs ==> Tunable(generated, user, p.0, p.1)
  }

  lemma OneChosenMore(user: SectionOptions, o: Options, done: set<(SectionId, string)>, id: SectionId,
                      key: string, s: SectionId)
    requires id in user && key in user[id]
    ensures s == id ==> Over(o, Chosen(user, s, done + {(id, key)})) == Over(o, Chosen(user, s, done))[key := user[id][key]]
    ensures s != id ==> Chosen(user, s, done + {(id, key)}) == Chosen(user, s, done)
  {
  }

  lemma OnePairMore(user: SectionOptions, generated: SectionOptions, done: set<(SectionId, string)>,
                    id: SectionId, key: string)
    requires id in user && id in generated && key in user[id]
    ensures var before := WithPairs(user, generated, done);
      WithPairs(user, generated, done + {(id, key)}) == before[id := before[id][key := user[id][key]]]
  {
    hide Over, Chosen;
    var before := WithPairs(user, generated, done);
    var after, expected := WithPairs(user, generated, done + {(id, key)}), before[id := before[id][key := user[id][key]]];
    assert after.Keys == expected.Keys;
    forall s | s in after ensures after[s] == expected[s] {
      OneChosenMore(user, generated[s], done, id, key, s);
    }
  }

  lemma NoPairs(user: SectionOptions, generated: SectionOptions)
    ensures WithPairs(user, generated, {}) == generated
  {
    hide Over;
    forall s | s in generated ensures WithPairs(user, generated, {})[s] == generated[s] {
      assert Chosen(user, s, {}) == map[];
      OverLaws(generated[s], map[], map[]);
    }
  }

  // ----- one option at a time -----

  lemma {:induction false} UntouchedAt(r: Reading, body: Text, key: string, i: nat)
    requires Untouched(r, body, key) && i < |body|
    ensures !Touches(Read(r, body[..i]), body[i], key)
    decreases i
  {
    if i > 0 {
      assert body[..i][1..] == body[1..][..i - 1] && body[..i][0] == body[0];
      UntouchedAt(Feed(r, body[0]), body[1..], key, i - 1);
    }
  }

  /** A line after the one that sets an option that can be set neither sets nor continues it. */
  lemma ContinuedElsewhere(body: Text, key: string, i: nat)
    requires Settable(body, key) && i < |body| && body[i].Setting? && body[i].key != key
    ensures !(Continues(Read(NOTHING, body[..i]), body[i]) && Read(NOTHING, body[..i]).previous == Some(key))
  {
    var j := FirstKey(body, key);
    if j < i {
      var r := Read(NOTHING, body[..j + 1]);
      UntouchedAt(r, body[j + 1..], key, i - j - 1);
      assert body[..i] == body[..j + 1] + body[j + 1..][..i - j - 1];
      ReadAppend(NOTHING, body[..j + 1], body[j + 1..][..i - j - 1]);
    } else {
      UnreadKey(body[..i], key);
    }
  }

  /** An option that can be set keeps its value when another one is set, wherever that edit lands. */
  lemma PutBodyElsewhere(body: Text, key: string, value: string, other: string)
    requires Settable(body, other) && key != other
    ensures Got(BodyOptions(PutBody(body, key, value)), other) == Got(BodyOptions(body), other)
  {
    var i := FirstKey(body, key);
    if i == |body| {
      PutBodyLaw(body, key, value);
    } else {
      var put := PutBody(body, key, value);
      assert put[..i] == body[..i] && put[i + 1..] == body[i + 1..];
      SplitAt(put, i);
      SplitAt(body, i);
      ContinuedElsewhere(body, other, i);
      var before := Read(NOTHING, body[..i]);
      var changed := if Continues(before, body[i]) then before.previous.value else key;
      LostElsewhere(Feed(before, put[i]), Feed(before, body[i]), body[i + 1..], changed, other);
    }
  }

  /** The options of a section that occurs once are those of its lines. */
  lemma {:induction false} OneBody(text: Text, id: SectionId)
    requires Count(text, id) == 1
    ensures At(OptionsOf(text), id) == BodyOptions(Body(text, id))
    decreases |text|
  {
    hide BodyOptions, TakeBody;
    AbsentSection(text[1..], id);
    if text[0].Header? {
      var first, rest := map[text[0].id := BodyOptions(TakeBody(text[1..]))], OptionsOf(text[1..]);
      if Is(text[0], id) {
        MergeHead(rest, id, first[id]);
      } else {
        OneBody(text[1..], id);
        OverLaws(rest[id], map[], map[]);
      }
    } else {
      OneBody(text[1..], id);
    }
  }

  /** The text has the carried values so far, and the generated value otherwise. */
  ghost predicate Follows(text: Text, generated: Text, user: SectionOptions, done: set<(SectionId, string)>,
                          id: SectionId, key: string)
  {
    && Count(text, id) == 1 && Settable(Body(text, id), key)
    && Got(BodyOptions(Body(text, id)), key) ==
       if (id, key) in done && id in user then Got(user[id], key) else Got(BodyOptions(Body(generated, id)), key)
  }

  lemma FollowsFurther(text: Text, generated: Text, user: SectionOptions, done: set<(SectionId, string)>,
                       p: (SectionId, string), id: SectionId, key: string)
    requires Follows(text, generated, user, done, id, key) && p.0 in user && p.1 in user[p.0]
    ensures Follows(Put(text, p.0, p.1, user[p.0][p.1]), generated, user, done + {p}, id, key)
  {
    hide Settable, PutBody, Put, BodyOptions, Body;
    var value := user[p.0][p.1];
    PutShape(text, p.0, p.1, value, id);
    if p.0 == id {
      if p.1 == key {
        PutBodyLaw(Body(text, id), key, value);
        SetAgain(Body(text, id), key, value);
      } else {
        PutBodyElsewhere(Body(text, id), p.1, value, key);
        StillSettable(Body(text, id), p.1, value, key);
      }
    }
  }

  lemma SetAgain(body: Text, key: string, value: string)
    requires Settable(body, key)
    ensures Settable(PutBody(body, key, value), key)
  {
    var i := FirstKey(body, key);
    var put := PutBody(body, key, value);
    if i < |body| {
      ShapeSettable(body, put, key);
    } else {
      KeyAt(put, key, i);
      UnreadKey(body, key);
      assert put[..i] == body && put[i + 1..] == [];
    }
  }

  /** The generated text lets the option be set, and what is carried into its section is of one line each. */
  ghost predicate Claimed(generated: Text, user: SectionOptions, base: SectionOptions, id: SectionId, key: string) {
    && Count(generated, id) == 1 && Settable(Body(generated, id), key)
    && forall k :: k in At(user, id) && Carried(user, base, id, k) ==> SingleLine(user[id][k])
  }

  ghost predicate AllFollow(text: Text, generated: Text, user: SectionOptions, done: set<(SectionId, string)>) {
    forall id, key :: Count(generated, id) == 1 && Settable(Body(generated, id), key) ==>
      Follows(text, generated, user, done, id, key)
  }

  lemma FollowsAtFirst(generated: Text, user: SectionOptions)
    ensures AllFollow(generated, generated, user, {})
  {
    hide Settable, Body, BodyOptions;
  }

  lemma AllFollowFurther(text: Text, generated: Text, user: SectionOptions, done: set<(SectionId, string)>,
                         p: (SectionId, string))
    requires AllFollow(text, generated, user, done) && p.0 in user && p.1 in user[p.0]
    ensures AllFollow(Put(text, p.0, p.1, user[p.0][p.1]), generated, user, done + {p})
  {
    hide Settable, Body, Follows, Put;
    forall id, key | Count(generated, id) == 1 && Settable(Body(generated, id), key)
      ensures Follows(Put(text, p.0, p.1, user[p.0][p.1]), generated, user, done + {p}, id, key)
    {
      FollowsFurther(text, generated, user, done, p, id, key);
    }
  }

  /** What the carried text says, option by option. */
  lemma FollowsToTheEnd(result: Text, generated: Text, user: SectionOptions)
    requires AllFollow(result, generated, user, CarriedPairs(user, OptionsOf(generated)))
    ensures forall id, key :: Claimed(generated, user, OptionsOf(generated), id, key) ==>
      && Got(At(OptionsOf(result), id), key) == Got(At(WithTuning(user, OptionsOf(generated)), id), key)
      && Decided(Got(At(OptionsOf(result), id), key), At(user, id), At(OptionsOf(generated), id), id, key)
  {
    hide OptionsOf, WithTuning, BodyOptions, Body, Settable, Decided;
    forall id, key | Claimed(generated, user, OptionsOf(generated), id, key)
      ensures Got(At(OptionsOf(result), id), key) == Got(At(WithTuning(user, OptionsOf(generated)), id), key)
      ensures Decided(Got(At(OptionsOf(result), id), key), At(user, id), At(OptionsOf(generated), id), id, key)
    {
      assert Follows(result, generated, user, CarriedPairs(user, OptionsOf(generated)), id, key);
      OneBody(result, id);
      OneBody(generated, id);
      AbsentSection(generated, id);
      TuningIsCarried(user, OptionsOf(generated), id, key);
      TuningIsDecided(user, OptionsOf(generated), id, key);
    }
  }

  lemma {:induction false} PutLines(text: Text, id: SectionId, key: string, value: string)
    ensures forall line :: line in Put(text, id, key, value) ==> line in text || line.Setting?
    decreases |text|
  {
    if text != [] {
      TakenHeaderless(text[1..]);
      PutLines(text[1..], id, key, value);
      assert forall line :: line in text <==> line == text[0] || line in text[1..];
    }
  }

  // ----- all options -----

  lemma StaysTunable(text: Text, user: SectionOptions, id: SectionId, key: string, value: string,
                     pairs: set<(SectionId, string)>)
    requires AllTunable(text, user, pairs) && (id, key) !in pairs && Count(text, id) == 1
    ensures AllTunable(Put(text, id, key, value), user, pairs)
  {
    hide Settable, PutBody, Put;
    forall p | p in pairs ensures Tunable(Put(text, id, key, value), user, p.0, p.1) {
      assert Tunable(text, user, p.0, p.1);
      PutShape(text, id, key, value, p.0);
      if p.0 == id {
        StillSettable(Body(text, id), key, value, p.1);
      }
    }
  }

  /** `_carry_user_tuning`, with the options taken in any order. */
  method CarryUserTuning(generated: Text, existing: Text) returns (result: Text)
    ensures Headers(result) == Headers(generated)
    ensures forall id :: id !in OptionsOf(existing) ==> Body(result, id) == Body(generated, id)
    ensures forall line :: line in result ==> line in generated || line.Setting?
    ensures forall id, key :: Claimed(generated, OptionsOf(existing), OptionsOf(generated), id, key) ==>
      && Got(At(OptionsOf(result), id), key) == Got(At(WithTuning(OptionsOf(existing), OptionsOf(generated)), id), key)
      && Decided(Got(At(OptionsOf(result), id), key), At(OptionsOf(existing), id), At(OptionsOf(generated), id), id, key)
    ensures AllTunable(generated, OptionsOf(existing), CarriedPairs(OptionsOf(existing), OptionsOf(generated))) ==>
      OptionsOf(result) == WithTuning(OptionsOf(existing), OptionsOf(generated))
  {
    hide OptionsOf, Put, WithPairs, Carried, Body, Tunable, AllTunable, AllFollow, Claimed, Decided, Count, Headers;
    var user := ReadOptions(existing);
    var base := ReadOptions(generated);
    var pending := CarriedPairs(user, base);
    ghost var all := pending;
    result := generated;
    NoPairs(user, base);
    FollowsAtFirst(generated, user);
    assert all - pending == {};
    while pending != {}
      invariant pending <= all
      invariant Headers(result) == Headers(generated)
      invariant forall id :: id !in user ==> Body(result, id) == Body(generated, id)
      invariant forall line :: line in result ==> line in generated || line.Setting?
      invariant AllFollow(result, generated, user, all - pending)
      invariant AllTunable(generated, user, all) ==>
        AllTunable(result, user, pending) && OptionsOf(result) == WithPairs(user, base, all - pending)
      decreases |pending|
    {
      var p :| p in pending;
      CarriedIsKnown(user, base, p);
      ghost var before := result;
      PutShape(before, p.0, p.1, user[p.0][p.1], p.0);
      result := ReplaceOrInsertOption(result, p.0, p.1, user[p.0][p.1]);
      forall id ensures id != p.0 ==> Body(result, id) == Body(before, id) {
        PutShape(before, p.0, p.1, user[p.0][p.1], id);
      }
      PutLines(before, p.0, p.1, user[p.0][p.1]);
      AllFollowFurther(before, generated, user, all - pending, p);
      assert all - pending + {p} == all - (pending - {p});
      if AllTunable(generated, user, all) {
        CarryStep(before, user, base, all, pending, p);
      }
      pending := pending - {p};
    }
    assert all - {} == all;
    FollowsToTheEnd(result, generated, user);
  }

  lemma CarriedIsKnown(user: SectionOptions, generated: SectionOptions, p: (SectionId, string))
    requires p in CarriedPairs(user, generated)
    ensures p.0 in user && p.0 in generated && p.1 in user[p.0]
  {
  }

  lemma CarryStep(text: Text, user: SectionOptions, base: SectionOptions, all: set<(SectionId, string)>,
                  pending: set<(SectionId, string)>, p: (SectionId, string))
    requires p in pending && pending <= all && p.0 in user && p.0 in base && p.1 in user[p.0]
    requires AllTunable(text, user, pending) && OptionsOf(text) == WithPairs(user, base, all - pending)
    ensures var put := Put(text, p.0, p.1, user[p.0][p.1]);
      && AllTunable(put, user, pending - {p}) && OptionsOf(put) == WithPairs(user, base, all - (pending - {p}))
  {
    hide OptionsOf, Put, WithPairs, Settable;
    assert Tunable(text, user, p.0, p.1);
    PutLaw(text, p.0, p.1, user[p.0][p.1]);
    StaysTunable(text, user, p.0, p.1, user[p.0][p.1], pending - {p});
    OnePairMore(user, base, all - pending, p.0, p.1);
    assert all - (pending - {p}) == (all - pending) + {(p.0, p.1)};
  }

  /**
    What carrying over promises for one option: the user's value for what is carried, the generated
    value for everything else.
   */
  lemma TuningIsCarried(user: SectionOptions, generated: SectionOptions, id: SectionId, key: string)
    requires id in generated
    ensures id in WithTuning(user, generated)
    ensures Got(WithTuning(user, generated)[id], key) ==
      if Carried(user, generated, id, key) then Some(user[id][key]) else Got(generated[id], key)
  {
  }

  /** The same on conditions that the text of the generated section shows. */
  lemma TuningIsDecided(user: SectionOptions, generated: SectionOptions, id: SectionId, key: string)
    requires id in generated
    ensures Decided(Got(At(WithTuning(user, generated), id), key), At(user, id), generated[id], id, key)
  {
    hide WithTuning, PreservedNames, Calibrates, Fold;
    TuningIsCarried(user, generated, id, key);
    if id.Named? {
      CalibrationNames(id.name, key);
    }
    if PidHeater(id) && key in {"pid_kp", "pid_ki", "pid_kd"} {
      PidIsCalibration(id, key);
    }
  }

  lemma PidIsCalibration(id: SectionId, key: string)
    requires PidHeater(id) && key in {"pid_kp", "pid_ki", "pid_kd"}
    ensures key in NamesOf(id) && StartsWith(key, "pid_")
  {
    hide PreservedNames, Fold, Calibrates;
    FoldedAlready(id.name);
    CalibrationNames(id.name, key);
    PidCalibrates(id.name, key);
  }

  lemma PidCalibrates(section: string, key: string)
    requires (section == "extruder" || section == "heater_bed") && key in {"pid_kp", "pid_ki", "pid_kd"}
    ensures Calibrates(section, key)
  {
  }

  lemma {:induction false} FoldedAlready(s: string)
    requires forall i :: 0 <= i < |s| ==> !('A' <= s[i] <= 'Z')
    ensures Fold(s) == s
  {
    if s != "" {
      FoldedAlready(s[1..]);
    }
  }
}

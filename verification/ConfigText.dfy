/**
  Klipper configuration text as a sequence of classified lines, the options it defines, and the
  edit that sets one option.

  Lines come classified; blank lines are left out.  A `Setting` line is one that the option pattern
  matches, whether it defines an option or continues the value of the option before it.
 */
module ConfigText {
  import opened Prelude

  datatype SectionId = Include(target: string) | Named(name: string)

  datatype Line =
    | Header(id: SectionId, raw: string)
    | Setting(indent: nat, key: string, lead: string, value: string, trail: string)
    | Words(indent: nat, raw: string)
    | Remark(raw: string)
    | Begin   // the marker line that opens the managed block
    | End     // the marker line that closes it
    | SaveHeader   // the line from which Klipper owns the rest of the file

  type Text = seq<Line>
  type Options = map<string, string>
  type SectionOptions = map<SectionId, Options>

  /** Case folding, of the ASCII letters that option and section names use. */
  function Fold(s: string): string {
    if s == "" then "" else [if 'A' <= s[0] <= 'Z' then s[0] - 'A' + 'a' else s[0]] + Fold(s[1..])
  }

  function Raw(line: Line): string {
    match line
    case Setting(_, _, lead, value, trail) => lead + value + trail
    case Words(_, raw) => raw
    case _ => ""
  }

  // ----- reading one section -----

  /** The options read so far, and the option that an indented line would continue. */
  datatype Reading = Reading(options: Options, previous: Option<string>, indent: nat)

  const NOTHING := Reading(map[], None, 0)

  predicate Continues(r: Reading, line: Line) {
    (line.Setting? || line.Words?) && r.previous.Some? && line.indent > r.indent
  }

  function Feed(r: Reading, line: Line): Reading {
    if !line.Setting? && !line.Words? then r
    else if Continues(r, line) then
      var key := r.previous.value;
      r.(options := r.options[key := (if key in r.options then r.options[key] else "") + "\n" + Raw(line)])
    else if line.Setting? then Reading(r.options[line.key := line.value], Some(line.key), line.indent)
    else r.(previous := None)
  }

  function Read(r: Reading, body: Text): Reading
    decreases |body|
  {
    if body == [] then r else Read(Feed(r, body[0]), body[1..])
  }

  function BodyOptions(body: Text): Options {
    Read(NOTHING, body).options
  }

  lemma {:induction false} ReadAppend(r: Reading, a: Text, b: Text)
    ensures Read(r, a + b) == Read(Read(r, a), b)
    decreases |a|
  {
    if a == [] {
      assert a + b == b;
    } else {
      assert (a + b)[1..] == a[1..] + b;
      ReadAppend(Feed(r, a[0]), a[1..], b);
    }
  }

  // ----- setting one option of a section -----

  /** The first line that the pattern of the option matches. */
  function FirstKey(body: Text, key: string): (i: nat)
    ensures i <= |body|
    ensures i < |body| ==> body[i].Setting? && body[i].key == key
    ensures forall j :: 0 <= j < i ==> !(body[j].Setting? && body[j].key == key)
  {
    if body == [] || (body[0].Setting? && body[0].key == key) then 0 else 1 + FirstKey(body[1..], key)
  }

  function Inserted(key: string, value: string): Line {
    Setting(0, key, key + ": ", value, "")
  }

  /** Replaces the value on the first matching line, or appends a line. */
  function PutBody(body: Text, key: string, value: string): Text {
    var i := FirstKey(body, key);
    if i < |body| then body[i := body[i].(value := value)] else body + [Inserted(key, value)]
  }

  /** A line changes the option `key` when it is read after `r`. */
  predicate Touches(r: Reading, line: Line, key: string) {
    if Continues(r, line) then r.previous == Some(key) else line.Setting? && line.key == key
  }

  predicate Untouched(r: Reading, body: Text, key: string)
    decreases |body|
  {
    body == [] || (!Touches(r, body[0], key) && Untouched(Feed(r, body[0]), body[1..], key))
  }

  /** The line that is edited defines the option, and nothing after it redefines or continues it. */
  predicate Settable(body: Text, key: string) {
    var i := FirstKey(body, key);
    i == |body| || (!Continues(Read(NOTHING, body[..i]), body[i])
                    && Untouched(Read(NOTHING, body[..i + 1]), body[i + 1..], key))
  }

  /** Two readings that differ in the value of `key` only. */
  predicate DifferAt(r: Reading, q: Reading, key: string, value: string) {
    q.previous == r.previous && q.indent == r.indent && q.options == r.options[key := value]
  }

  lemma {:induction false} DifferenceStays(r: Reading, q: Reading, body: Text, key: string, value: string)
    requires DifferAt(r, q, key, value) && Untouched(r, body, key)
    ensures DifferAt(Read(r, body), Read(q, body), key, value)
    decreases |body|
  {
    if body != [] {
      assert DifferAt(Feed(r, body[0]), Feed(q, body[0]), key, value);
      DifferenceStays(Feed(r, body[0]), Feed(q, body[0]), body[1..], key, value);
    }
  }

  lemma SplitAt(body: Text, i: nat)
    requires i < |body|
    ensures Read(NOTHING, body[..i + 1]) == Feed(Read(NOTHING, body[..i]), body[i])
    ensures Read(NOTHING, body) == Read(Read(NOTHING, body[..i + 1]), body[i + 1..])
  {
    assert body[..i + 1] == body[..i] + [body[i]];
    ReadAppend(NOTHING, body[..i], [body[i]]);
    assert Read(Feed(Read(NOTHING, body[..i]), body[i]), []) == Feed(Read(NOTHING, body[..i]), body[i]);
    assert [body[i]][1..] == [];
    assert body == body[..i + 1] + body[i + 1..];
    ReadAppend(NOTHING, body[..i + 1], body[i + 1..]);
  }

  /** Setting an option that can be set changes that option alone. */
  lemma PutBodyLaw(body: Text, key: string, value: string)
    requires Settable(body, key)
    ensures BodyOptions(PutBody(body, key, value)) == BodyOptions(body)[key := value]
  {
    var i := FirstKey(body, key);
    var put := PutBody(body, key, value);
    if i == |body| {
      assert put[..i] == body && put[i + 1..] == [];
      SplitAt(put, i);
    } else {
      assert put[..i] == body[..i] && put[i + 1..] == body[i + 1..];
      SplitAt(put, i);
      SplitAt(body, i);
      DifferenceStays(Read(NOTHING, body[..i + 1]), Read(NOTHING, put[..i + 1]), body[i + 1..], key, value);
    }
  }

  predicate SingleLine(value: string) {
    value != "" && '\n' !in value && '\r' !in value
  }

  function Got(o: Options, key: string): Option<string> {
    if key in o then Some(o[key]) else None
  }

  /** What two readings that differ at `key` have in common once an edit of it is lost. */
  ghost predicate Lost(r: Reading, q: Reading, key: string) {
    && q.previous == r.previous && q.indent == r.indent
    && (forall k :: k != key ==> Got(r.options, k) == Got(q.options, k))
    && (Got(r.options, key) == Got(q.options, key)
        || (key in r.options && key in q.options && |r.options[key]| > 1 && |q.options[key]| > 1))
  }

  lemma LostStep(r: Reading, q: Reading, line: Line, key: string)
    requires Lost(r, q, key)
    ensures Lost(Feed(r, line), Feed(q, line), key)
  {
    var r1, q1 := Feed(r, line), Feed(q, line);
    forall k | k != key ensures Got(r1.options, k) == Got(q1.options, k) {
      assert Got(r.options, k) == Got(q.options, k);
    }
    if Continues(r, line) && r.previous.value == key {
      assert Got(r.options, key) == Got(q.options, key) || |r.options[key]| > 1;
    }
  }

  lemma {:induction false} LostStays(r: Reading, q: Reading, body: Text, key: string)
    requires Lost(r, q, key)
    ensures Lost(Read(r, body), Read(q, body), key)
    decreases |body|
  {
    if body != [] {
      LostStep(r, q, body[0], key);
      LostStays(Feed(r, body[0]), Feed(q, body[0]), body[1..], key);
    }
  }

  lemma {:induction false} TouchedIsLost(r: Reading, q: Reading, body: Text, key: string)
    requires key in r.options && DifferAt(r, q, key, "1") && r.options[key] == "0" && !Untouched(r, body, key)
    ensures Lost(Read(r, body), Read(q, body), key)
    decreases |body|
  {
    var r1, q1 := Feed(r, body[0]), Feed(q, body[0]);
    if Touches(r, body[0], key) {
      assert Lost(r1, q1, key);
      LostStays(r1, q1, body[1..], key);
    } else {
      assert DifferAt(r1, q1, key, "1");
      TouchedIsLost(r1, q1, body[1..], key);
    }
  }

  /** Without a line that sets it, no option is read; so none is continued either. */
  lemma {:induction false} UnreadKey(body: Text, key: string)
    requires forall j :: 0 <= j < |body| ==> !(body[j].Setting? && body[j].key == key)
    ensures Read(NOTHING, body).previous != Some(key) && key !in BodyOptions(body)
    decreases |body|
  {
    if body != [] {
      var init := body[..|body| - 1];
      UnreadKey(init, key);
      SplitAt(body, |init|);
    }
  }

  /** The exact condition: an edit is read back, whatever the value, if and only if the option can be set. */
  lemma PutIsReadBack(body: Text, key: string)
    ensures Settable(body, key) <==>
      forall value | SingleLine(value) :: Got(BodyOptions(PutBody(body, key, value)), key) == Some(value)
  {
    if Settable(body, key) {
      forall value | SingleLine(value) ensures Got(BodyOptions(PutBody(body, key, value)), key) == Some(value) {
        PutBodyLaw(body, key, value);
      }
    } else {
      LostWithout(body, key);
      assert SingleLine("0") && SingleLine("1");
    }
  }

  lemma LostWithout(body: Text, key: string)
    requires !Settable(body, key)
    ensures Got(BodyOptions(PutBody(body, key, "0")), key) != Some("0")
      || Got(BodyOptions(PutBody(body, key, "1")), key) != Some("1")
  {
    var i := FirstKey(body, key);
    var zero, one := PutBody(body, key, "0"), PutBody(body, key, "1");
    assert zero[..i] == body[..i] == one[..i];
    assert zero[i + 1..] == body[i + 1..] == one[i + 1..];
    SplitAt(zero, i);
    SplitAt(one, i);
    SplitAt(body, i);
    var before := Read(NOTHING, body[..i]);
    UnreadKey(body[..i], key);
    var r, q := Feed(before, zero[i]), Feed(before, one[i]);
    if Continues(before, body[i]) {
      // the edit went to the value of another option
      LostElsewhere(r, q, body[i + 1..], before.previous.value, key);
    } else {
      SameTouches(Read(NOTHING, body[..i + 1]), r, body[i + 1..], key);
      TouchedIsLost(r, q, body[i + 1..], key);
    }
  }

  lemma {:induction false} LostElsewhere(r: Reading, q: Reading, body: Text, other: string, key: string)
    requires other != key && q.previous == r.previous && q.indent == r.indent
    requires forall k :: k != other ==> Got(r.options, k) == Got(q.options, k)
    ensures Got(Read(r, body).options, key) == Got(Read(q, body).options, key)
    decreases |body|
  {
    if body != [] {
      var r1, q1 := Feed(r, body[0]), Feed(q, body[0]);
      forall k | k != other ensures Got(r1.options, k) == Got(q1.options, k) {
        assert Got(r.options, k) == Got(q.options, k);
      }
      LostElsewhere(r1, q1, body[1..], other, key);
    }
  }

  /** Whether an option is touched depends on the shape of the lines, not on its value. */
  lemma {:induction false} SameTouches(r: Reading, q: Reading, body: Text, key: string)
    requires q.previous == r.previous && q.indent == r.indent
    ensures Untouched(r, body, key) == Untouched(q, body, key)
    decreases |body|
  {
    if body != [] {
      SameTouches(Feed(r, body[0]), Feed(q, body[0]), body[1..], key);
    }
  }

  // ----- sections -----

  /** The lines up to the next header, and the lines from it on. */
  function TakeBody(text: Text): (body: Text)
    ensures body <= text && (|body| < |text| ==> text[|body|].Header?)
    ensures forall i :: 0 <= i < |body| ==> !body[i].Header?
  {
    if text == [] || text[0].Header? then [] else [text[0]] + TakeBody(text[1..])
  }

  function DropBody(text: Text): Text {
    text[|TakeBody(text)|..]
  }

  predicate Headerless(text: Text) {
    forall i :: 0 <= i < |text| ==> !text[i].Header?
  }

  predicate StartsSection(text: Text) {
    text == [] || text[0].Header?
  }

  function At(o: SectionOptions, id: SectionId): Options {
    if id in o then o[id] else map[]
  }

  function Over(before: Options, after: Options): Options {
    before + after
  }

  function Merge(a: SectionOptions, b: SectionOptions): SectionOptions {
    map id | id in a.Keys + b.Keys :: Over(At(a, id), At(b, id))
  }

  /** What the text sets: sections of one identity are merged, the later value of an option counts. */
  function OptionsOf(text: Text): SectionOptions {
    if text == [] then map[]
    else if text[0].Header? then Merge(map[text[0].id := BodyOptions(TakeBody(text[1..]))], OptionsOf(text[1..]))
    else OptionsOf(text[1..])
  }

  lemma OverLaws(x: Options, y: Options, z: Options)
    ensures Over(Over(x, y), z) == Over(x, Over(y, z))
    ensures Over(map[], x) == x && Over(x, map[]) == x
  {
  }

  lemma AtMerge(a: SectionOptions, b: SectionOptions, id: SectionId)
    ensures At(Merge(a, b), id) == Over(At(a, id), At(b, id))
  {
    OverLaws(map[], map[], map[]);
  }

  lemma MergeLaws(a: SectionOptions, b: SectionOptions, c: SectionOptions)
    ensures Merge(map[], a) == a && Merge(a, map[]) == a
    ensures Merge(Merge(a, b), c) == Merge(a, Merge(b, c))
  {
    hide Over;
    MergeUnit(a);
    var left, right := Merge(Merge(a, b), c), Merge(a, Merge(b, c));
    assert left.Keys == right.Keys;
    forall id | id in left ensures left[id] == right[id] {
      AtMerge(a, b, id);
      AtMerge(b, c, id);
      OverLaws(At(a, id), At(b, id), At(c, id));
    }
  }

  lemma MergeUnit(a: SectionOptions)
    ensures Merge(map[], a) == a && Merge(a, map[]) == a
  {
    hide Over;
    forall id | id in a ensures Merge(map[], a)[id] == a[id] && Merge(a, map[])[id] == a[id] {
      OverLaws(a[id], map[], map[]);
    }
  }

  lemma {:induction false} TakeBodyAppend(body: Text, rest: Text)
    requires Headerless(body) && StartsSection(rest)
    ensures TakeBody(body + rest) == body && DropBody(body + rest) == rest
    decreases |body|
  {
    if body == [] {
      assert body + rest == rest;
    } else {
      assert (body + rest)[1..] == body[1..] + rest;
      TakeBodyAppend(body[1..], rest);
    }
  }

  lemma {:induction false} SkipHeaderless(body: Text, rest: Text)
    requires Headerless(body)
    ensures OptionsOf(body + rest) == OptionsOf(rest)
    decreases |body|
  {
    if body == [] {
      assert body + rest == rest;
    } else {
      assert (body + rest)[1..] == body[1..] + rest;
      SkipHeaderless(body[1..], rest);
    }
  }

  lemma {:induction false} OptionsAppend(a: Text, b: Text)
    requires StartsSection(b)
    ensures OptionsOf(a + b) == Merge(OptionsOf(a), OptionsOf(b))
    decreases |a|
  {
    hide Merge, BodyOptions;
    if a == [] {
      assert a + b == b;
      MergeUnit(OptionsOf(b));
    } else {
      assert (a + b)[1..] == a[1..] + b;
      OptionsAppend(a[1..], b);
      if a[0].Header? {
        TakeBodyWithin(a[1..], b);
        MergeLaws(map[a[0].id := BodyOptions(TakeBody(a[1..]))], OptionsOf(a[1..]), OptionsOf(b));
      }
    }
  }

  lemma {:induction false} TakeBodyWithin(a: Text, b: Text)
    requires StartsSection(b)
    ensures TakeBody(a + b) == TakeBody(a)
    decreases |a|
  {
    if a == [] {
      assert a + b == b;
    } else {
      assert (a + b)[1..] == a[1..] + b;
      TakeBodyWithin(a[1..], b);
    }
  }

  method ReadBody(text: Text, start: nat) returns (options: Options, end: nat)
    requires start <= |text|
    ensures start <= end <= |text| && text[start..end] == TakeBody(text[start..])
    ensures text[end..] == DropBody(text[start..])
    ensures options == BodyOptions(text[start..end])
  {
    var reading := NOTHING;
    end := start;
    while end < |text| && !text[end].Header?
      invariant start <= end <= |text| && Headerless(text[start..end])
      invariant reading == Read(NOTHING, text[start..end])
    {
      ReadOneMore(text[start..end], text[end]);
      assert text[start..end + 1] == text[start..end] + [text[end]];
      reading := Feed(reading, text[end]);
      end := end + 1;
    }
    assert text[start..] == text[start..end] + text[end..];
    TakeBodyAppend(text[start..end], text[end..]);
    options := reading.options;
  }

  lemma ReadOneMore(body: Text, line: Line)
    ensures Read(NOTHING, body + [line]) == Feed(Read(NOTHING, body), line)
  {
    assert (body + [line])[..|body|] == body;
    SplitAt(body + [line], |body|);
  }

  /** `_section_options`. */
  method ReadOptions(text: Text) returns (result: SectionOptions)
    ensures result == OptionsOf(text)
  {
    hide Merge, BodyOptions;
    result := map[];
    var start := 0;
    MergeUnit(OptionsOf(text));
    while start < |text|
      invariant start <= |text|
      invariant Merge(result, OptionsOf(text[start..])) == OptionsOf(text)
    {
      var line := text[start];
      assert text[start..][1..] == text[start + 1..];
      if line.Header? {
        var options, end := ReadBody(text, start + 1);
        SectionRead(result, text, start, options, end);
        result := Merge(result, map[line.id := options]);
        start := end;
      } else {
        start := start + 1;
      }
    }
    MergeUnit(result);
  }

  lemma SectionRead(result: SectionOptions, text: Text, start: nat, options: Options, end: nat)
    requires start < end <= |text| && text[start].Header?
    requires text[start + 1..end] == TakeBody(text[start + 1..]) && options == BodyOptions(text[start + 1..end])
    ensures Merge(result, OptionsOf(text[start..])) == Merge(Merge(result, map[text[start].id := options]), OptionsOf(text[end..]))
  {
    hide Merge, BodyOptions;
    assert text[start..][1..] == text[start + 1..];
    assert text[start + 1..] == text[start + 1..end] + text[end..];
    SkipHeaderless(text[start + 1..end], text[end..]);
    MergeLaws(result, map[text[start].id := options], OptionsOf(text[end..]));
  }
}

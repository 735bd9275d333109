/** Adding one section or option to an INI text without touching anything else in it. */
module IniReconciler {
  import opened Prelude
  import opened ConfigText
  import opened TuningCarryOver

  /** Blank lines do matter here: an option goes in front of those that end its section. */
  const BLANK := Remark("")

  datatype Wanted = SectionOnly | WithOption(key: string, value: string)

  function Matches(line: Line, key: string): bool {
    line.Setting? && line.key == key
  }

  /** Some section of that identity has a line that the option pattern matches. */
  predicate Mentions(text: Text, id: SectionId, key: string) {
    text != [] && ((Is(text[0], id) && FirstKey(TakeBody(text[1..]), key) < |TakeBody(text[1..])|)
                   || Mentions(text[1..], id, key))
  }

  /** The length without the blank lines at the end. */
  function Filled(body: Text): (n: nat)
    ensures n <= |body|
    ensures forall i :: n <= i < |body| ==> body[i] == BLANK
  {
    if body == [] || body[|body| - 1] != BLANK then |body| else Filled(body[..|body| - 1])
  }

  function InsertIntoBody(body: Text, line: Line): Text {
    body[..Filled(body)] + [line] + body[Filled(body)..]
  }

  /** Inserts the option into the first section of that identity. */
  function Insert(text: Text, id: SectionId, key: string, value: string): Text {
    if text == [] then []
    else if Is(text[0], id) then
      [text[0]] + InsertIntoBody(TakeBody(text[1..]), Inserted(key, value)) + DropBody(text[1..])
    else [text[0]] + Insert(text[1..], id, key, value)
  }

  function NewSection(text: Text, id: SectionId, wanted: Wanted): Text {
    text + (if text != [] && text[|text| - 1] != BLANK then [BLANK] else [])
    + [Header(id, "")] + if wanted.WithOption? then [Inserted(wanted.key, wanted.value)] else []
  }

  function Ensured(text: Text, id: SectionId, wanted: Wanted): Text {
    if Count(text, id) == 0 then NewSection(text, id, wanted)
    else if wanted.WithOption? && !Mentions(text, id, wanted.key) then Insert(text, id, wanted.key, wanted.value)
    else text
  }

  // ----- the loops -----

  method FindSections(text: Text, id: SectionId) returns (first: nat, found: bool)
    ensures found <==> Count(text, id) > 0
    ensures found ==> first < |text| && Is(text[first], id) && forall i :: 0 <= i < first ==> !Is(text[i], id)
  {
    first, found := 0, false;
    assert text[0..] == text;
    while first < |text| && !Is(text[first], id)
      invariant first <= |text| && Count(text[first..], id) == Count(text, id)
      invariant forall i :: 0 <= i < first ==> !Is(text[i], id)
    {
      assert text[first..][1..] == text[first + 1..];
      first := first + 1;
    }
    found := first < |text|;
  }

  method BodyEnd(text: Text, start: nat) returns (end: nat)
    requires start <= |text|
    ensures start <= end <= |text| && text[start..end] == TakeBody(text[start..]) && text[end..] == DropBody(text[start..])
  {
    end := start;
    while end < |text| && !text[end].Header?
      invariant start <= end <= |text| && Headerless(text[start..end])
    {
      assert text[start..end + 1] == text[start..end] + [text[end]];
      end := end + 1;
    }
    assert text[start..] == text[start..end] + text[end..];
    TakeBodyAppend(text[start..end], text[end..]);
  }

  method MentionsOption(text: Text, id: SectionId, key: string) returns (found: bool)
    ensures found == Mentions(text, id, key)
  {
    assert text[0..] == text;
    for i := 0 to |text|
      invariant Mentions(text[i..], id, key) == Mentions(text, id, key)
    {
      assert text[i..][1..] == text[i + 1..];
      if Is(text[i], id) {
        var end := BodyEnd(text, i + 1);
        if FirstKey(text[i + 1..end], key) < end - i - 1 {
          return true;
        }
      }
    }
    found := false;
  }

  method TrimBlanks(body: Text) returns (n: nat)
    ensures n == Filled(body)
  {
    n := |body|;
    assert body[..n] == body;
    while n > 0 && body[n - 1] == BLANK
      invariant n <= |body| && Filled(body) == Filled(body[..n])
    {
      assert body[..n][..n - 1] == body[..n - 1];
      n := n - 1;
    }
  }

  /** `ensure_ini_section_and_option`. */
  method EnsureSectionAndOption(text: Text, id: SectionId, wanted: Wanted) returns (result: Text, changed: bool)
    ensures result == Ensured(text, id, wanted)
    ensures changed <==> result != text
  {
    hide Insert, Filled, Mentions, Count, TakeBody, DropBody;
    var first, found := FindSections(text, id);
    if !found {
      result := text;
      if text != [] && text[|text| - 1] != BLANK {
        result := result + [BLANK];
      }
      result := result + [Header(id, "")];
      if wanted.WithOption? {
        result := result + [Inserted(wanted.key, wanted.value)];
      }
      assert |result| > |text|;
      return result, true;
    }
    if wanted.SectionOnly? {
      return text, false;
    }
    var mentioned := MentionsOption(text, id, wanted.key);
    if mentioned {
      return text, false;
    }
    var at := BodyEnd(text, first + 1);
    var body := text[first + 1..at];
    InsertAt(text, id, wanted.key, wanted.value, first);
    var filled := TrimBlanks(body);
    at := first + 1 + filled;
    result := text[..at] + [Inserted(wanted.key, wanted.value)] + text[at..];
    changed := true;
    assert |result| == |text| + 1;
  }

  lemma {:induction false} InsertAfter(before: Text, rest: Text, id: SectionId, key: string, value: string)
    requires forall i :: 0 <= i < |before| ==> !Is(before[i], id)
    ensures Insert(before + rest, id, key, value) == before + Insert(rest, id, key, value)
    decreases |before|
  {
    hide InsertIntoBody, TakeBody;
    if before == [] {
      assert before + rest == rest;
      assert [] + Insert(rest, id, key, value) == Insert(rest, id, key, value);
    } else {
      assert (before + rest)[1..] == before[1..] + rest;
      InsertAfter(before[1..], rest, id, key, value);
      assert before == [before[0]] + before[1..];
    }
  }

  lemma InsertAt(text: Text, id: SectionId, key: string, value: string, first: nat)
    requires first < |text| && Is(text[first], id) && forall i :: 0 <= i < first ==> !Is(text[i], id)
    ensures var at := first + 1 + Filled(TakeBody(text[first + 1..]));
      at <= |text| && Insert(text, id, key, value) == text[..at] + [Inserted(key, value)] + text[at..]
  {
    hide TakeBody, Filled, Insert, DropBody;
    var tail := text[first + 1..];
    BodySplits(tail);
    assert text == text[..first] + ([text[first]] + tail);
    InsertSpliced(text[..first], text[first], tail, id, key, value);
  }

  lemma InsertSpliced(before: Text, header: Line, tail: Text, id: SectionId, key: string, value: string)
    requires (forall i :: 0 <= i < |before| ==> !Is(before[i], id)) && Is(header, id)
    ensures var text, at := before + ([header] + tail), |before| + 1 + Filled(TakeBody(tail));
      at <= |text| && Insert(text, id, key, value) == text[..at] + [Inserted(key, value)] + text[at..]
  {
    hide TakeBody, Filled, Insert, DropBody, InsertIntoBody;
    var rest := [header] + tail;
    assert rest[1..] == tail;
    InsertAfter(before, rest, id, key, value);
    InsertHead(rest, id, key, value);
    BodySplits(tail);
    Splice(before, header, TakeBody(tail), Filled(TakeBody(tail)), DropBody(tail), Inserted(key, value));
  }

  lemma InsertHead(text: Text, id: SectionId, key: string, value: string)
    requires text != [] && Is(text[0], id)
    ensures var body, n := TakeBody(text[1..]), Filled(TakeBody(text[1..]));
      Insert(text, id, key, value) == [text[0]] + (body[..n] + [Inserted(key, value)] + body[n..]) + DropBody(text[1..])
  {
    hide TakeBody, DropBody, Filled;
  }

  lemma Splice(before: Text, header: Line, body: Text, n: nat, after: Text, line: Line)
    requires n <= |body|
    ensures var text, at := before + ([header] + (body + after)), |before| + 1 + n;
      text[..at] + [line] + text[at..] == before + ([header] + (body[..n] + [line] + body[n..]) + after)
  {
    var text, at := before + ([header] + (body + after)), |before| + 1 + n;
    assert text[..at] == before + [header] + body[..n];
    assert text[at..] == body[n..] + after;
  }

  lemma BodySplits(text: Text)
    ensures text == TakeBody(text) + DropBody(text) && Filled(TakeBody(text)) <= |TakeBody(text)| <= |text|
    ensures StartsSection(DropBody(text))
  {
    hide Filled;
  }

  // ----- what the edit means -----

  /** Only insertions: the text is there before and after the new lines. */
  lemma InsertOnly(text: Text, id: SectionId, wanted: Wanted)
    ensures exists at: nat, added: Text :: InsertedAt(text, Ensured(text, id, wanted), at, added)
  {
    hide TakeBody, Filled, Insert, Count, Mentions;
    var after := Ensured(text, id, wanted);
    if Count(text, id) == 0 {
      var added := after[|text|..];
      assert after == text + added && text[..|text|] == text && text[|text|..] == [];
      assert InsertedAt(text, after, |text|, added);
    } else if after != text {
      var first := FirstOf(text, id);
      InsertAt(text, id, wanted.key, wanted.value, first);
      var at := first + 1 + Filled(TakeBody(text[first + 1..]));
      assert InsertedAt(text, after, at, [Inserted(wanted.key, wanted.value)]);
    } else {
      assert text == text[..0] + [] + text[0..];
      assert InsertedAt(text, after, 0, []);
    }
  }

  ghost predicate InsertedAt(text: Text, after: Text, at: nat, added: Text) {
    at <= |text| && |added| <= 3 && after == text[..at] + added + text[at..]
  }

  /** The lines of the text are there afterwards, and what is new is blank, a header or a setting. */
  lemma OnlyPlainLines(text: Text, id: SectionId, wanted: Wanted, line: Line)
    ensures line in text ==> line in Ensured(text, id, wanted)
    ensures line in Ensured(text, id, wanted) ==>
      line in text || line == BLANK || line == Header(id, "") || (line.Setting? && wanted.WithOption?)
  {
    hide TakeBody, Filled, Insert, Count, Mentions;
    if Count(text, id) > 0 && Ensured(text, id, wanted) != text {
      var first := FirstOf(text, id);
      InsertAt(text, id, wanted.key, wanted.value, first);
      var at := first + 1 + Filled(TakeBody(text[first + 1..]));
      assert text == text[..at] + text[at..];
    }
  }

  function FirstOf(text: Text, id: SectionId): (i: nat)
    requires Count(text, id) > 0
    ensures i < |text| && Is(text[i], id) && forall j :: 0 <= j < i ==> !Is(text[j], id)
  {
    if Is(text[0], id) then 0 else 1 + FirstOf(text[1..], id)
  }

  lemma {:induction false} BlanksReadNothing(r: Reading, body: Text)
    requires forall i :: 0 <= i < |body| ==> body[i] == BLANK
    ensures Read(r, body) == r
    decreases |body|
  {
    if body != [] {
      BlanksReadNothing(r, body[1..]);
    }
  }

  lemma InsertIntoBodyLaw(body: Text, key: string, value: string)
    ensures BodyOptions(InsertIntoBody(body, Inserted(key, value))) == BodyOptions(body)[key := value]
  {
    hide Read;
    var n := Filled(body);
    var line := Inserted(key, value);
    assert body == body[..n] + body[n..];
    ReadAppend(NOTHING, body[..n], body[n..]);
    ReadAppend(NOTHING, body[..n] + [line], body[n..]);
    ReadAppend(NOTHING, body[..n], [line]);
    ReadOneLine(Read(NOTHING, body[..n]), line);
    BlanksReadNothing(Read(NOTHING, body[..n]), body[n..]);
    BlanksReadNothing(Feed(Read(NOTHING, body[..n]), line), body[n..]);
  }

  lemma ReadOneLine(r: Reading, line: Line)
    ensures Read(r, [line]) == Feed(r, line)
  {
    assert [line][1..] == [];
  }

  lemma InsertIntoBodyHasNoHeader(body: Text, line: Line)
    requires Headerless(body) && !line.Header?
    ensures Headerless(InsertIntoBody(body, line))
  {
  }

  lemma {:induction false} InsertTakes(text: Text, id: SectionId, key: string, value: string)
    ensures TakeBody(Insert(text, id, key, value)) == TakeBody(text)
    decreases |text|
  {
    if text != [] && !Is(text[0], id) {
      assert Insert(text, id, key, value)[1..] == Insert(text[1..], id, key, value);
      InsertTakes(text[1..], id, key, value);
    }
  }

  /** The edited section and what follows it. */
  lemma InsertHere(text: Text, id: SectionId, key: string, value: string)
    requires text != [] && Is(text[0], id)
    ensures var put := InsertIntoBody(TakeBody(text[1..]), Inserted(key, value));
      && Headerless(put) && Insert(text, id, key, value)[1..] == put + DropBody(text[1..])
      && TakeBody(Insert(text, id, key, value)[1..]) == put
      && text[1..] == TakeBody(text[1..]) + DropBody(text[1..]) && Headerless(TakeBody(text[1..]))
  {
    hide InsertIntoBody, Headerless, TakeBody, DropBody;
    var body, rest := TakeBody(text[1..]), DropBody(text[1..]);
    TakenHeaderless(text[1..]);
    BodySplits(text[1..]);
    var put := InsertIntoBody(body, Inserted(key, value));
    InsertIntoBodyHasNoHeader(body, Inserted(key, value));
    TakeBodyAppend(put, rest);
    assert ([text[0]] + put + rest)[1..] == put + rest;
  }

  lemma {:induction false} Unmentioned(text: Text, id: SectionId, key: string)
    requires !Mentions(text, id, key)
    ensures id in OptionsOf(text) ==> key !in OptionsOf(text)[id]
    decreases |text|
  {
    hide Merge, BodyOptions, Over;
    if text != [] {
      Unmentioned(text[1..], id, key);
      if text[0].Header? {
        var here := map[text[0].id := BodyOptions(TakeBody(text[1..]))];
        AtMerge(here, OptionsOf(text[1..]), id);
        KeysMerge(here, OptionsOf(text[1..]), id, key);
        if text[0].id == id {
          UnreadKey(TakeBody(text[1..]), key);
        }
      }
    }
  }

  lemma KeysMerge(a: SectionOptions, b: SectionOptions, id: SectionId, key: string)
    ensures id in Merge(a, b) <==> id in a || id in b
    ensures id in Merge(a, b) && key in Merge(a, b)[id] ==> (id in a && key in a[id]) || (id in b && key in b[id])
  {
  }

  /** Inserting an option that no line mentions sets that option, and changes no other option of any section. */
  lemma {:induction false} InsertLaw(text: Text, id: SectionId, key: string, value: string)
    requires Count(text, id) > 0 && !Mentions(text, id, key)
    ensures id in OptionsOf(text)
    ensures OptionsOf(Insert(text, id, key, value)) == OptionsOf(text)[id := OptionsOf(text)[id][key := value]]
    decreases |text|
  {
    hide Merge, BodyOptions, InsertIntoBody;
    AbsentSection(text, id);
    if Is(text[0], id) {
      var body := TakeBody(text[1..]);
      InsertHere(text, id, key, value);
      InsertIntoBodyLaw(body, key, value);
      SkipHeaderless(body, DropBody(text[1..]));
      SkipHeaderless(InsertIntoBody(body, Inserted(key, value)), DropBody(text[1..]));
      Unmentioned(text[1..], id, key);
      UpdateBefore(BodyOptions(body), OptionsOf(text[1..]), id, key, value);
    } else {
      assert Insert(text, id, key, value)[1..] == Insert(text[1..], id, key, value);
      InsertLaw(text[1..], id, key, value);
      if text[0].Header? {
        InsertTakes(text[1..], id, key, value);
        UpdateAfter(map[text[0].id := BodyOptions(TakeBody(text[1..]))], OptionsOf(text[1..]), id, key, value);
      }
    }
  }

  lemma UpdateBefore(o: Options, b: SectionOptions, id: SectionId, key: string, value: string)
    requires id in b ==> key !in b[id]
    ensures Merge(map[id := o[key := value]], b) == Merge(map[id := o], b)[id := Merge(map[id := o], b)[id][key := value]]
  {
    hide Over;
    var left, right := Merge(map[id := o[key := value]], b), Merge(map[id := o], b)[id := Merge(map[id := o], b)[id][key := value]];
    assert left.Keys == right.Keys;
    OverUpdate(o, At(b, id), key, value);
    assert forall s :: s in left ==> left[s] == right[s];
  }

  lemma OverUpdate(a: Options, b: Options, key: string, value: string)
    requires key !in b
    ensures Over(a[key := value], b) == Over(a, b)[key := value]
  {
  }

  /**
    The option is set afterwards, unless a line was taken for it that only continues another option;
    a value that was set is kept.  Every other option of every section is as before.
   */
  lemma EnsuredOptions(text: Text, id: SectionId, key: string, value: string)
    ensures var before, after := OptionsOf(text), OptionsOf(Ensured(text, id, WithOption(key, value)));
      && id in after && (forall s :: s != id ==> (s in after <==> s in before) && At(after, s) == At(before, s))
      && (forall k :: k != key ==> Got(after[id], k) == Got(At(before, id), k))
      && Got(after[id], key) == (if Mentions(text, id, key) then Got(At(before, id), key) else Some(value))
  {
    hide OptionsOf, Insert;
    AbsentSection(text, id);
    if Count(text, id) == 0 {
      NotMentioned(text, id, key);
      NewSectionOptions(text, id, WithOption(key, value));
    } else if !Mentions(text, id, key) {
      InsertLaw(text, id, key, value);
    }
  }

  lemma {:induction false} NotMentioned(text: Text, id: SectionId, key: string)
    requires Count(text, id) == 0
    ensures !Mentions(text, id, key)
    decreases |text|
  {
    if text != [] {
      NotMentioned(text[1..], id, key);
    }
  }

  lemma NewSectionOptions(text: Text, id: SectionId, wanted: Wanted)
    requires Count(text, id) == 0
    ensures OptionsOf(NewSection(text, id, wanted))
      == OptionsOf(text)[id := if wanted.WithOption? then map[wanted.key := wanted.value] else map[]]
  {
    hide Merge;
    var gap := if text != [] && text[|text| - 1] != BLANK then [BLANK] else [];
    var body := if wanted.WithOption? then [Inserted(wanted.key, wanted.value)] else [];
    var section := [Header(id, "")] + body;
    assert NewSection(text, id, wanted) == text + gap + section;
    OptionsAppend(text + gap, section);
    GapReadsNothing(text, gap);
    assert section[1..] == body && body + [] == body;
    TakeBodyAppend(body, []);
    SkipHeaderless(body, []);
    if wanted.WithOption? {
      ReadOneLine(NOTHING, body[0]);
    }
    MergeUnit(map[id := BodyOptions(body)]);
    AbsentSection(text, id);
    MergeNew(OptionsOf(text), id, BodyOptions(body));
  }

  lemma MergeNew(a: SectionOptions, id: SectionId, o: Options)
    requires id !in a
    ensures Merge(a, map[id := o]) == a[id := o]
  {
    hide Over;
    OverLaws(o, map[], map[]);
    forall s | s in a ensures Over(a[s], map[]) == a[s] {
      OverLaws(a[s], map[], map[]);
    }
  }

  lemma {:induction false} GapReadsNothing(text: Text, gap: Text)
    requires forall i :: 0 <= i < |gap| ==> gap[i] == BLANK
    ensures OptionsOf(text + gap) == OptionsOf(text)
    decreases |text|
  {
    hide Merge;
    if text == [] {
      assert text + gap == gap && gap + [] == gap;
      SkipHeaderless(gap, []);
    } else {
      assert (text + gap)[1..] == text[1..] + gap;
      GapReadsNothing(text[1..], gap);
      if text[0].Header? {
        GapInBody(text[1..], gap);
      }
    }
  }

  lemma {:induction false} GapInBody(text: Text, gap: Text)
    requires forall i :: 0 <= i < |gap| ==> gap[i] == BLANK
    ensures BodyOptions(TakeBody(text + gap)) == BodyOptions(TakeBody(text))
  {
    hide Read, TakeBody, DropBody, Headerless;
    var body, rest := TakeBody(text), DropBody(text);
    TakenHeaderless(text);
    BodySplits(text);
    assert text + gap == body + (rest + gap);
    if rest == [] {
      assert body + (rest + gap) == body + gap && body + gap + [] == body + gap;
      GapHeaderless(body, gap);
      TakeBodyAppend(body + gap, []);
      ReadAppend(NOTHING, body, gap);
      BlanksReadNothing(Read(NOTHING, body), gap);
    } else {
      assert (rest + gap)[0] == rest[0];
      TakeBodyAppend(body, rest + gap);
    }
  }

  lemma GapHeaderless(body: Text, gap: Text)
    requires Headerless(body) && forall i :: 0 <= i < |gap| ==> gap[i] == BLANK
    ensures Headerless(body + gap)
  {
  }

  /** Doing it again changes nothing. */
  lemma EnsuringIsIdempotent(text: Text, id: SectionId, wanted: Wanted)
    ensures Ensured(Ensured(text, id, wanted), id, wanted) == Ensured(text, id, wanted)
  {
    hide Insert, NewSection;
    if Count(text, id) == 0 {
      NewSectionMentions(text, id, wanted);
    } else if wanted.WithOption? && !Mentions(text, id, wanted.key) {
      InsertMentions(text, id, wanted.key, wanted.value);
    }
  }

  lemma NewSectionMentions(text: Text, id: SectionId, wanted: Wanted)
    ensures Count(NewSection(text, id, wanted), id) > 0
    ensures wanted.WithOption? ==> Mentions(NewSection(text, id, wanted), id, wanted.key)
  {
    var gap := if text != [] && text[|text| - 1] != BLANK then [BLANK] else [];
    var body := if wanted.WithOption? then [Inserted(wanted.key, wanted.value)] else [];
    var section := [Header(id, "")] + body;
    assert NewSection(text, id, wanted) == text + gap + section;
    assert section[1..] == body && body + [] == body;
    TakeBodyAppend(body, []);
    MentionsLater(text + gap, section, id, if wanted.WithOption? then wanted.key else "");
  }

  lemma {:induction false} MentionsLater(before: Text, rest: Text, id: SectionId, key: string)
    ensures Count(before + rest, id) == Count(before, id) + Count(rest, id)
    ensures Mentions(rest, id, key) ==> Mentions(before + rest, id, key)
    decreases |before|
  {
    hide FirstKey, TakeBody;
    if before == [] {
      assert before + rest == rest;
    } else {
      assert (before + rest)[1..] == before[1..] + rest;
      MentionsLater(before[1..], rest, id, key);
    }
  }

  lemma {:induction false} InsertMentions(text: Text, id: SectionId, key: string, value: string)
    requires Count(text, id) > 0
    ensures Count(Insert(text, id, key, value), id) > 0 && Mentions(Insert(text, id, key, value), id, key)
    decreases |text|
  {
    hide InsertIntoBody, TakeBody, FirstKey;
    var after := Insert(text, id, key, value);
    if Is(text[0], id) {
      InsertHere(text, id, key, value);
      InsertedIsFound(TakeBody(text[1..]), key, value);
    } else {
      assert after[1..] == Insert(text[1..], id, key, value);
      InsertMentions(text[1..], id, key, value);
    }
  }

  lemma InsertedIsFound(body: Text, key: string, value: string)
    ensures FirstKey(InsertIntoBody(body, Inserted(key, value)), key) < |InsertIntoBody(body, Inserted(key, value))|
  {
    assert InsertIntoBody(body, Inserted(key, value))[Filled(body)] == Inserted(key, value);
  }

  /** A line that continues another option is taken for the option, which then stays unset. */
  lemma ContinuationIsMistaken(id: SectionId, key: string, other: string)
    requires key != other
    ensures var text := [Header(id, ""), Setting(0, other, other + ": ", "x", ""), Setting(2, key, key + ": ", "y", "")];
      && Ensured(text, id, WithOption(key, "True")) == text
      && id in OptionsOf(text) && key !in OptionsOf(text)[id]
  {
    var body := [Setting(0, other, other + ": ", "x", ""), Setting(2, key, key + ": ", "y", "")];
    var text := [Header(id, "")] + body;
    assert text == [Header(id, ""), Setting(0, other, other + ": ", "x", ""), Setting(2, key, key + ": ", "y", "")];
    assert text[1..] == body && body + [] == body;
    TakeBodyAppend(body, []);
    SkipHeaderless(body, []);
    MergeUnit(map[id := BodyOptions(body)]);
    var first := Feed(NOTHING, body[0]);
    assert body[1..][1..] == [];
    assert Read(first, body[1..]) == Feed(first, body[1]);
    assert FirstKey(body[1..], key) == 0 && FirstKey(body, key) == 1;
  }
}

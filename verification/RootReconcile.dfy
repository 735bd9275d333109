/**
  The root `printer.cfg`: one block that KACE owns inside a file that belongs to its user.

  The text that goes into the block besides the include lines (`content`: the include of the
  generated hardware file, or in the root layout the generated sections themselves; `calibration`:
  the settings that Klipper must be able to save) is a parameter here; `RootCalibration` derives it.
 */
module RootReconcile {
  import opened Prelude
  import opened ConfigText

  const HARDWARE := Include("kace/generated-hardware.cfg")
  const MACROS := Include("kace/generated-macros.cfg")
  const LEGACY_MACROS := Include("macros.cfg")
  const MAINSAIL := Include("mainsail.cfg")
  const LAYOUT := Remark("# KACE layout: root-v1")

  // ----- sections as pieces of a text -----

  /** The sections of a text, each with its header; the lines before the first one are left to `TakeBody`. */
  function Sections(text: Text): seq<Text> {
    if text == [] then []
    else if text[0].Header? then [[text[0]] + TakeBody(text[1..])] + Sections(text[1..])
    else Sections(text[1..])
  }

  function Flatten(pieces: seq<Text>): Text {
    if pieces == [] then [] else pieces[0] + Flatten(pieces[1..])
  }

  predicate IsSection(piece: Text) {
    piece != [] && piece[0].Header? && Headerless(piece[1..])
  }

  function Keep(pieces: seq<Text>, drop: set<SectionId>): seq<Text> {
    if pieces == [] then []
    else (if IsSection(pieces[0]) && pieces[0][0].id in drop then [] else [pieces[0]]) + Keep(pieces[1..], drop)
  }

  function HeaderIds(text: Text): set<SectionId> {
    set line | line in text && line.Header? :: line.id
  }

  /** The text without the sections of the given identities, each with its whole body. */
  function StripSections(text: Text, drop: set<SectionId>): Text
    decreases |text|
  {
    if text == [] then []
    else if text[0].Header? && text[0].id in drop then StripSections(DropBody(text[1..]), drop)
    else [text[0]] + StripSections(text[1..], drop)
  }

  lemma {:induction false} SectionsAfterBody(body: Text, rest: Text)
    requires Headerless(body)
    ensures Sections(body + rest) == Sections(rest)
    decreases |body|
  {
    if body == [] {
      assert body + rest == rest;
    } else {
      assert (body + rest)[1..] == body[1..] + rest;
      SectionsAfterBody(body[1..], rest);
    }
  }

  lemma Consing(piece: Text, pieces: seq<Text>, drop: set<SectionId>)
    ensures Flatten([piece] + pieces) == piece + Flatten(pieces)
    ensures Keep([piece] + pieces, drop) ==
      (if IsSection(piece) && piece[0].id in drop then [] else [piece]) + Keep(pieces, drop)
  {
    assert ([piece] + pieces)[1..] == pieces;
  }

  lemma Associative(line: Line, a: Text, b: Text)
    ensures [line] + (a + b) == [line] + a + b
  {
  }

  lemma SectionPiece(text: Text)
    requires text != [] && text[0].Header?
    ensures var piece := [text[0]] + TakeBody(text[1..]);
      && IsSection(piece) && piece[0] == text[0] && Sections(text) == [piece] + Sections(text[1..])
      && Sections(text[1..]) == Sections(DropBody(text[1..])) && TakeBody(DropBody(text[1..])) == []
  {
    hide TakeBody, IsSection;
    var rest := text[1..];
    assert IsSection([text[0]] + TakeBody(rest)) by { PieceIsSection(text[0], TakeBody(rest)); }
    assert rest == TakeBody(rest) + DropBody(rest);
    SectionsAfterBody(TakeBody(rest), DropBody(rest));
    NothingTaken(DropBody(rest));
  }

  lemma PieceIsSection(header: Line, body: Text)
    requires header.Header? && Headerless(body)
    ensures IsSection([header] + body)
  {
    assert ([header] + body)[1..] == body;
  }

  lemma NothingTaken(text: Text)
    requires StartsSection(text)
    ensures TakeBody(text) == []
  {
  }

  /** Stripping keeps the lines before the first section and, in order and verbatim, every other section. */
  lemma {:induction false} StripKeepsSections(text: Text, drop: set<SectionId>)
    ensures StripSections(text, drop) == TakeBody(text) + Flatten(Keep(Sections(text), drop))
    decreases |text|
  {
    hide IsSection, Keep, Flatten, Sections;
    if text == [] {
      EmptyPieces(drop);
    } else if text[0].Header? {
      var rest := text[1..];
      SectionPiece(text);
      var piece := [text[0]] + TakeBody(rest);
      Consing(piece, Sections(rest), drop);
      if text[0].id in drop {
        StripKeepsSections(DropBody(rest), drop);
        assert [] + Keep(Sections(rest), drop) == Keep(Sections(rest), drop);
      } else {
        StripKeepsSections(rest, drop);
        Consing(piece, Keep(Sections(rest), drop), drop);
        Associative(text[0], TakeBody(rest), Flatten(Keep(Sections(rest), drop)));
      }
    } else {
      StripKeepsSections(text[1..], drop);
      NoSectionFirst(text);
      Associative(text[0], TakeBody(text[1..]), Flatten(Keep(Sections(text[1..]), drop)));
    }
  }

  lemma EmptyPieces(drop: set<SectionId>)
    ensures Sections([]) == [] && Keep([], drop) == [] && Flatten([]) == []
  {
  }

  lemma NoSectionFirst(text: Text)
    requires text != [] && !text[0].Header?
    ensures Sections(text) == Sections(text[1..])
  {
  }

  /** The sections, after the lines before them, are the text. */
  lemma SectionsCover(text: Text)
    ensures TakeBody(text) + Flatten(Sections(text)) == text
  {
    StripKeepsSections(text, {});
    KeepAll(Sections(text));
    StripNothing(text, {});
  }

  lemma {:induction false} KeepAll(pieces: seq<Text>)
    ensures Keep(pieces, {}) == pieces
  {
    if pieces != [] {
      KeepAll(pieces[1..]);
    }
  }

  lemma {:induction false} StripNothing(text: Text, drop: set<SectionId>)
    requires forall line :: line in text && line.Header? ==> line.id !in drop
    ensures StripSections(text, drop) == text
    decreases |text|
  {
    if text != [] {
      StripNothing(text[1..], drop);
    }
  }

  lemma {:induction false} StripHeaderless(body: Text, rest: Text, drop: set<SectionId>)
    requires Headerless(body)
    ensures StripSections(body + rest, drop) == body + StripSections(rest, drop)
    decreases |body|
  {
    if body == [] {
      assert body + rest == rest;
    } else {
      assert (body + rest)[1..] == body[1..] + rest;
      StripHeaderless(body[1..], rest, drop);
    }
  }

  /** `_strip_owned_sections` and `_remove_include`: the spans are deleted from the last one back. */
  method DeleteSpans(text: Text, drop: set<SectionId>) returns (result: Text)
    ensures result == StripSections(text, drop)
  {
    hide StripSections, Headerless;
    var i, end := |text|, |text|;
    result := text;
    DeletedNothing(text, drop);
    while i > 0
      invariant 0 <= i <= end <= |text|
      invariant Headerless(text[i..end]) && StartsSection(text[end..])
      invariant result == text[..end] + StripSections(text[end..], drop)
    {
      i := i - 1;
      if text[i].Header? {
        StripSpan(text, i, end, drop);
        if text[i].id in drop {
          DeleteOne(text, StripSections(text[end..], drop), i, end);
          result := result[..i] + result[end..];
        }
        end := i;
        EmptySpan(text, i);
      } else {
        LongerSpan(text, i, end);
      }
    }
    assert text == text[..end] + text[end..] && text[0..end] == text[..end];
    StripHeaderless(text[..end], text[end..], drop);
  }

  lemma DeletedNothing(text: Text, drop: set<SectionId>)
    ensures text[..|text|] + StripSections(text[|text|..], drop) == text && Headerless(text[|text|..|text|])
  {
    assert text[|text|..] == [];
  }

  lemma DeleteOne(text: Text, rest: Text, i: nat, end: nat)
    requires i <= end <= |text|
    ensures (text[..end] + rest)[..i] + (text[..end] + rest)[end..] == text[..i] + rest
  {
  }

  lemma EmptySpan(text: Text, i: nat)
    requires i <= |text|
    ensures Headerless(text[i..i])
  {
  }

  lemma LongerSpan(text: Text, i: nat, end: nat)
    requires i < end <= |text| && !text[i].Header? && Headerless(text[i + 1..end])
    ensures Headerless(text[i..end])
  {
    assert text[i..end] == [text[i]] + text[i + 1..end];
  }

  lemma StripSpan(text: Text, i: nat, end: nat, drop: set<SectionId>)
    requires i < end <= |text| && text[i].Header?
    requires Headerless(text[i + 1..end]) && StartsSection(text[end..])
    ensures text[..i] + StripSections(text[i..], drop) ==
      if text[i].id in drop then text[..i] + StripSections(text[end..], drop)
      else text[..end] + StripSections(text[end..], drop)
  {
    hide TakeBody, StripSections, Headerless;
    var body := text[i + 1..end];
    StripOne(text[i], body, text[end..], drop);
    assert text[i..] == [text[i]] + body + text[end..];
    assert text[..end] == text[..i] + ([text[i]] + body);
  }

  lemma StripOne(header: Line, body: Text, rest: Text, drop: set<SectionId>)
    requires header.Header? && Headerless(body) && StartsSection(rest)
    ensures StripSections([header] + body + rest, drop) ==
      (if header.id in drop then [] else [header] + body) + StripSections(rest, drop)
  {
    hide TakeBody;
    assert ([header] + body + rest)[1..] == body + rest;
    TakeBodyAppend(body, rest);
    StripHeaderless(body, rest, drop);
    assert [] + StripSections(rest, drop) == StripSections(rest, drop);
    Associative(header, body, StripSections(rest, drop));
  }

  // ----- the managed block -----

  function Occurrences(text: Text, line: Line): nat {
    if text == [] then 0 else (if text[0] == line then 1 else 0) + Occurrences(text[1..], line)
  }

  function IndexOf(text: Text, line: Line): (i: nat)
    ensures i <= |text| && (i < |text| ==> text[i] == line) && line !in text[..i]
  {
    if text == [] || text[0] == line then 0 else 1 + IndexOf(text[1..], line)
  }

  predicate Malformed(text: Text) {
    Occurrences(text, Begin) != Occurrences(text, End) || Occurrences(text, Begin) > 1
  }

  /** There is a block: an opening marker with the closing one after it. */
  predicate HasBlock(text: Text) {
    IndexOf(text, Begin) < IndexOf(text, End) < |text|
  }

  /**
    What the generated configuration brings: its own section identities, its include lines, its
    sections, what the root must hold for Klipper to save, and whether the root layout is used.
   */
  datatype Plan = Plan(owned: set<SectionId>, includes: Text, generated: Text, calibration: Text,
                       macros: bool, inline: bool)

  /** What the planner passes: no marker in the generated text, and only its own sections. */
  ghost predicate Clean(plan: Plan) {
    && Begin !in plan.generated + plan.calibration && End !in plan.generated + plan.calibration
    && SaveHeader !in plan.generated + plan.calibration && LAYOUT !in plan.generated + plan.calibration
    && HeaderIds(plan.generated) + HeaderIds(plan.calibration) <= plan.owned
    && (forall id :: id in plan.owned ==> id.Named?)
    && (forall line :: line in plan.includes ==> line.Header? && line.id.Include?)
    && (plan.inline ==> plan.calibration == [])
  }

  function IncludeLine(id: SectionId): Line {
    Header(id, "[include " + (if id.Include? then id.target else "") + "]")
  }

  /** What KACE wrote into the block of the root layout. */
  function Written(plan: Plan): set<SectionId> {
    plan.owned + {HARDWARE, MACROS} + HeaderIds(plan.includes)
  }

  /** The sections that a user added inside the block of the root layout. */
  function Retained(inner: Text, plan: Plan): Text {
    Flatten(RetainedSections(inner, plan))
  }

  function RetainedSections(inner: Text, plan: Plan): seq<Text> {
    if plan.inline then Keep(Sections(inner), Written(plan)) else []
  }

  /** The root without the managed block. */
  function Outside(text: Text, plan: Plan): Text {
    var b, e := IndexOf(text, Begin), IndexOf(text, End);
    if b < e < |text| then text[..b] + Retained(text[b + 1..e], plan) + text[e + 1..] else text
  }

  function Base(text: Text, plan: Plan): Text {
    StripSections(Outside(text, plan), plan.owned)
  }

  /** The generated includes that the user's part does not have already. */
  function Extra(includes: Text, present: set<SectionId>): Text {
    if includes == [] then []
    else (if includes[0].Header? && includes[0].id in present then [] else [includes[0]]) + Extra(includes[1..], present)
  }

  function Block(extra: Text, plan: Plan): Text {
    [Begin] + extra
    + (if plan.inline then plan.generated else [IncludeLine(HARDWARE)])
    + (if plan.macros then [IncludeLine(MACROS)] else [])
    + plan.calibration + [End]
  }

  predicate IsMainsail(line: Line) {
    line.Header? && line.id == MAINSAIL
  }

  function MainsailLines(text: Text): Text {
    if text == [] then [] else (if IsMainsail(text[0]) then [text[0]] else []) + MainsailLines(text[1..])
  }

  function WithoutMainsail(text: Text): Text {
    if text == [] then [] else (if IsMainsail(text[0]) then [] else [text[0]]) + WithoutMainsail(text[1..])
  }

  /** In the root layout the Mainsail defaults are loaded before the generated settings. */
  function Lead(base: Text, plan: Plan): Text {
    if !plan.inline then []
    else MainsailLines(base) + MainsailLines(Extra(plan.includes, HeaderIds(base)))
  }

  function BlockIncludes(base: Text, plan: Plan): Text {
    Extra(plan.includes, HeaderIds(base) + if plan.inline then {MAINSAIL} else {})
  }

  function UserPart(base: Text, plan: Plan): Text {
    if plan.inline then WithoutMainsail(base) else base
  }

  function Reconcile(existing: Text, plan: Plan): Result<Text, ()> {
    if Malformed(existing) then Failure(())
    else
      var base := Base(existing, plan);
      Success(Lead(base, plan) + Block(BlockIncludes(base, plan), plan) + UserPart(base, plan))
  }

  // ----- the method -----

  method FindLine(text: Text, line: Line) returns (i: nat, count: nat)
    ensures i == IndexOf(text, line) && count == Occurrences(text, line)
  {
    i, count := |text|, 0;
    assert text[|text|..] == [];
    for k := |text| downto 0
      invariant i == k + IndexOf(text[k..], line) && count == Occurrences(text[k..], line)
    {
      assert text[k..][1..] == text[k + 1..];
      if text[k] == line {
        i, count := k, count + 1;
      }
    }
    assert text[0..] == text;
  }

  /** Moves the Mainsail include lines out of the text. */
  method SplitMainsail(text: Text) returns (moved: Text, kept: Text)
    ensures moved == MainsailLines(text) && kept == WithoutMainsail(text)
  {
    hide MainsailLines, WithoutMainsail, IsMainsail;
    moved, kept := [], [];
    assert text[0..] == text;
    assert [] + MainsailLines(text) == MainsailLines(text) && [] + WithoutMainsail(text) == WithoutMainsail(text);
    for k := 0 to |text|
      invariant moved + MainsailLines(text[k..]) == MainsailLines(text)
      invariant kept + WithoutMainsail(text[k..]) == WithoutMainsail(text)
    {
      MainsailStep(text, k, moved, kept);
      if IsMainsail(text[k]) {
        moved := moved + [text[k]];
      } else {
        kept := kept + [text[k]];
      }
    }
    NoMainsailLeft(text);
  }

  lemma NoMainsailLeft(text: Text)
    ensures MainsailLines(text[|text|..]) == [] && WithoutMainsail(text[|text|..]) == []
  {
  }

  lemma MainsailStep(text: Text, k: nat, moved: Text, kept: Text)
    requires k < |text|
    ensures var line, rest := [text[k]], text[k + 1..];
      && moved + MainsailLines(text[k..]) == (if IsMainsail(text[k]) then moved + line else moved) + MainsailLines(rest)
      && kept + WithoutMainsail(text[k..]) == (if IsMainsail(text[k]) then kept else kept + line) + WithoutMainsail(rest)
  {
    hide IsMainsail;
    assert text[k..][1..] == text[k + 1..];
    assert [] + MainsailLines(text[k + 1..]) == MainsailLines(text[k + 1..]);
    assert [] + WithoutMainsail(text[k + 1..]) == WithoutMainsail(text[k + 1..]);
  }

  /** `_reconcile_root`. */
  method ReconcileRoot(existing: Text, plan: Plan) returns (r: Result<Text, ()>)
    ensures r == Reconcile(existing, plan)
  {
    hide StripSections, Retained, Extra, MainsailLines, WithoutMainsail, IndexOf, Occurrences, Block, HeaderIds;
    var b, begins := FindLine(existing, Begin);
    var e, ends := FindLine(existing, End);
    if begins != ends || begins > 1 {
      return Failure(());
    }
    var base := existing;
    if b < e < |existing| {
      base := existing[..b] + Retained(existing[b + 1..e], plan) + existing[e + 1..];
    }
    base := DeleteSpans(base, plan.owned);
    var extra := Extra(plan.includes, HeaderIds(base));
    if !plan.inline {
      assert HeaderIds(base) + {} == HeaderIds(base);
      return Success([] + Block(extra, plan) + base);
    }
    var lead, kept := SplitMainsail(base);
    var generated, _ := SplitMainsail(extra);
    r := Success(lead + generated + Block(Extra(plan.includes, HeaderIds(base) + {MAINSAIL}), plan) + kept);
  }

  // ----- what survives -----

  lemma {:induction false} SectionsAppend(a: Text, b: Text)
    requires StartsSection(b)
    ensures Sections(a + b) == Sections(a) + Sections(b)
    decreases |a|
  {
    if a == [] {
      assert a + b == b;
    } else {
      assert (a + b)[1..] == a[1..] + b;
      SectionsAppend(a[1..], b);
      TakeBodyWithin(a[1..], b);
    }
  }

  lemma {:induction false} SectionsOfPieces(pieces: seq<Text>)
    requires forall i :: 0 <= i < |pieces| ==> IsSection(pieces[i])
    ensures Sections(Flatten(pieces)) == pieces && StartsSection(Flatten(pieces))
    decreases |pieces|
  {
    if pieces != [] {
      var rest := Flatten(pieces[1..]);
      SectionsOfPieces(pieces[1..]);
      SectionsAppend(pieces[0], rest);
      OnePiece(pieces[0]);
    }
  }

  lemma OnePiece(piece: Text)
    requires IsSection(piece)
    ensures Sections(piece) == [piece]
  {
    TakeBodyAppend(piece[1..], []);
    assert piece[1..] + [] == piece[1..];
    assert [piece[0]] + piece[1..] == piece;
    SectionsAfterBody(piece[1..], []);
    assert Sections(piece) == [piece] + Sections(piece[1..]);
  }

  lemma {:induction false} KeptAreSections(pieces: seq<Text>, drop: set<SectionId>)
    requires forall i :: 0 <= i < |pieces| ==> IsSection(pieces[i])
    ensures forall i :: 0 <= i < |Keep(pieces, drop)| ==> IsSection(Keep(pieces, drop)[i])
    decreases |pieces|
  {
    if pieces != [] {
      KeptAreSections(pieces[1..], drop);
    }
  }

  lemma {:induction false} AreSections(text: Text)
    ensures forall i :: 0 <= i < |Sections(text)| ==> IsSection(Sections(text)[i])
    decreases |text|
  {
    if text != [] {
      AreSections(text[1..]);
      if text[0].Header? {
        SectionPiece(text);
      }
    }
  }

  /** The lines that follow the header of a Mainsail include, up to the next header that stays. */
  function Loose(pieces: seq<Text>): Text {
    if pieces == [] || pieces[0] == [] || !IsMainsail(pieces[0][0]) then [] else pieces[0][1..] + Loose(pieces[1..])
  }

  /** The sections without the Mainsail include lines; what followed such a line belongs to the section before it. */
  function Joined(pieces: seq<Text>): seq<Text> {
    if pieces == [] then []
    else if pieces[0] != [] && IsMainsail(pieces[0][0]) then Joined(pieces[1..])
    else [pieces[0] + Loose(pieces[1..])] + Joined(pieces[1..])
  }

  /**
    Conservation: after the block come the user's lines before the first section and then, in their
    order and verbatim, all sections outside the block that the generated configuration does not own.
    The root layout moves the Mainsail include lines, and nothing else, to the front.
   */
  lemma UserContentSurvives(existing: Text, plan: Plan)
    requires !Malformed(existing)
    ensures var outside := Outside(existing, plan);
      var kept := Keep(Sections(outside), plan.owned);
      var user := TakeBody(outside) + Flatten(kept);
      var rest := UserPart(user, plan);
      && Reconcile(existing, plan).value == Lead(user, plan) + Block(BlockIncludes(user, plan), plan) + rest
      && Sections(rest) == (if plan.inline then Joined(kept) else kept)
      && TakeBody(rest) == TakeBody(outside) + (if plan.inline then Loose(kept) else [])
      && (if plan.inline then MainsailLines(user) <= Lead(user, plan) else Lead(user, plan) == [])
  {
    hide Keep, Flatten, Joined, Loose, Sections, Block, BlockIncludes, Outside, Malformed;
    var outside := Outside(existing, plan);
    var kept := Keep(Sections(outside), plan.owned);
    StripKeepsSections(outside, plan.owned);
    AreSections(outside);
    KeptAreSections(Sections(outside), plan.owned);
    SectionsOfPieces(kept);
    SectionsAfterBody(TakeBody(outside), Flatten(kept));
    TakeBodyAppend(TakeBody(outside), Flatten(kept));
    NoMainsail(TakeBody(outside));
    RestAppend(TakeBody(outside), Flatten(kept));
    JoinedSections(TakeBody(outside), kept);
    assert TakeBody(outside) + [] == TakeBody(outside);
  }

  lemma {:induction false} JoinedSections(front: Text, pieces: seq<Text>)
    requires Headerless(front) && forall i :: 0 <= i < |pieces| ==> IsSection(pieces[i])
    ensures Sections(front + WithoutMainsail(Flatten(pieces))) == Joined(pieces)
    ensures TakeBody(front + WithoutMainsail(Flatten(pieces))) == front + Loose(pieces)
    decreases |pieces|
  {
    hide Sections, TakeBody, WithoutMainsail, Headerless, IsMainsail;
    if pieces == [] {
      NothingJoined(front);
    } else {
      var header, body, rest := pieces[0][0], pieces[0][1..], pieces[1..];
      assert pieces[0] == [header] + body;
      if IsMainsail(header) {
        BothHeaderless(front, body);
        JoinedSections(front + body, rest);
      } else {
        JoinedSections(body, rest);
      }
      JoinPiece(front, header, body, rest);
    }
  }

  lemma JoinPiece(front: Text, header: Line, body: Text, rest: seq<Text>)
    requires Headerless(front) && Headerless(body) && header.Header?
    requires var before, tail := if IsMainsail(header) then front + body else body, WithoutMainsail(Flatten(rest));
      Sections(before + tail) == Joined(rest) && TakeBody(before + tail) == before + Loose(rest)
    ensures var text, pieces := front + WithoutMainsail([header] + body + Flatten(rest)), [[header] + body] + rest;
      Sections(text) == Joined(pieces) && TakeBody(text) == front + Loose(pieces)
  {
    hide Sections, TakeBody, WithoutMainsail, Headerless, IsMainsail, Flatten, Joined, Loose;
    var tail := WithoutMainsail(Flatten(rest));
    MainsailPiece(header, body, Flatten(rest));
    JoinedStep(header, body, rest);
    if IsMainsail(header) {
      Regrouped(front, body, tail);
      Regrouped(front, body, Loose(rest));
    } else {
      HeaderAfter(front, header, body + tail);
      Associative(header, body, Loose(rest));
      assert front + [] == front;
    }
  }

  lemma Regrouped(a: Text, b: Text, c: Text)
    ensures a + (b + c) == a + b + c
  {
  }

  lemma JoinedStep(header: Line, body: Text, rest: seq<Text>)
    ensures Loose([[header] + body] + rest) == if IsMainsail(header) then body + Loose(rest) else []
    ensures Joined([[header] + body] + rest) ==
      if IsMainsail(header) then Joined(rest) else [[header] + body + Loose(rest)] + Joined(rest)
  {
    hide IsMainsail;
    assert ([[header] + body] + rest)[1..] == rest && ([header] + body)[1..] == body;
  }

  lemma MainsailPiece(header: Line, body: Text, rest: Text)
    requires Headerless(body)
    ensures WithoutMainsail([header] + body + rest) ==
      if IsMainsail(header) then body + WithoutMainsail(rest) else [header] + (body + WithoutMainsail(rest))
  {
    hide IsMainsail, WithoutMainsail;
    NoMainsailIn(body, rest);
    Regrouped([header], body, rest);
    FirstMoved(header, body + rest);
  }

  lemma NoMainsailIn(body: Text, rest: Text)
    requires Headerless(body)
    ensures WithoutMainsail(body + rest) == body + WithoutMainsail(rest)
  {
    NoMainsail(body);
    RestAppend(body, rest);
  }

  lemma FirstMoved(line: Line, rest: Text)
    ensures WithoutMainsail([line] + rest) == (if IsMainsail(line) then [] else [line]) + WithoutMainsail(rest)
    ensures [] + WithoutMainsail(rest) == WithoutMainsail(rest)
  {
    hide IsMainsail;
    assert ([line] + rest)[1..] == rest;
  }

  lemma NothingJoined(front: Text)
    requires Headerless(front)
    ensures Sections(front + WithoutMainsail([])) == [] && TakeBody(front + WithoutMainsail([])) == front
  {
    SectionsAfterBody(front, []);
    TakeBodyAppend(front, []);
  }

  lemma HeaderAfter(front: Text, header: Line, tail: Text)
    requires Headerless(front) && header.Header?
    ensures Sections(front + ([header] + tail)) == [[header] + TakeBody(tail)] + Sections(tail)
    ensures TakeBody(front + ([header] + tail)) == front
  {
    SectionsAfterBody(front, [header] + tail);
    TakeBodyAppend(front, [header] + tail);
    assert ([header] + tail)[1..] == tail;
  }

  // ----- what is outside the block -----

  /** Lines that come to stand behind the last section belong to it from then on. */
  function Glue(pieces: seq<Text>, lines: Text): seq<Text> {
    if pieces == [] then [] else pieces[..|pieces| - 1] + [pieces[|pieces| - 1] + lines]
  }

  /** The section in which a text ends. */
  function LastHeader(text: Text): Option<SectionId> {
    if text == [] then None
    else if LastHeader(text[1..]).Some? || !text[0].Header? then LastHeader(text[1..])
    else Some(text[0].id)
  }

  lemma {:induction false} SectionsGlue(a: Text, lines: Text)
    requires Headerless(lines)
    ensures Sections(a + lines) == Glue(Sections(a), lines)
    ensures TakeBody(a + lines) == TakeBody(a) + if Sections(a) == [] then lines else []
    decreases |a|
  {
    hide Headerless;
    if a == [] {
      NothingJoined(lines);
      assert a + lines == lines && lines + [] == lines;
    } else {
      assert (a + lines)[1..] == a[1..] + lines;
      SectionsGlue(a[1..], lines);
      var body, more := TakeBody(a[1..]), if Sections(a[1..]) == [] then lines else [];
      Associative(a[0], body, more);
      if a[0].Header? {
        GlueFurther([a[0]] + body, Sections(a[1..]), lines);
        assert [a[0]] + body + [] == [a[0]] + body;
      }
    }
  }

  lemma GlueFurther(piece: Text, pieces: seq<Text>, lines: Text)
    ensures Glue([piece] + pieces, lines) == [piece + if pieces == [] then lines else []] + Glue(pieces, lines)
  {
    if pieces != [] {
      assert piece + [] == piece;
      assert ([piece] + pieces)[..|pieces|] == [piece] + pieces[..|pieces| - 1];
    }
  }

  /**
    Removing the block takes nothing else away: the sections before it, in the root layout those the
    user added inside, and those behind it stay.  Lines between the block and the next section come
    to stand in the last of the sections before them.
   */
  lemma OutsideIsEverythingElse(existing: Text, plan: Plan)
    requires HasBlock(existing)
    ensures var b, e := IndexOf(existing, Begin), IndexOf(existing, End);
      var before := Sections(existing[..b]) + RetainedSections(existing[b + 1..e], plan);
      var behind := TakeBody(existing[e + 1..]);
      && Sections(Outside(existing, plan)) == Glue(before, behind) + Sections(existing[e + 1..])
      && TakeBody(Outside(existing, plan)) == TakeBody(existing[..b]) + if before == [] then behind else []
  {
    hide Keep, IndexOf, Sections, Flatten, IsSection, RetainedSections, TakeBody, Glue;
    var b, e := IndexOf(existing, Begin), IndexOf(existing, End);
    RetainedAreSections(existing[b + 1..e], plan);
    ThreeParts(existing[..b], RetainedSections(existing[b + 1..e], plan), existing[e + 1..]);
  }

  lemma RetainedAreSections(inner: Text, plan: Plan)
    ensures Sections(Retained(inner, plan)) == RetainedSections(inner, plan) && StartsSection(Retained(inner, plan))
  {
    AreSections(inner);
    KeptAreSections(Sections(inner), Written(plan));
    SectionsOfPieces(RetainedSections(inner, plan));
  }

  lemma ThreeParts(before: Text, pieces: seq<Text>, after: Text)
    requires Sections(Flatten(pieces)) == pieces && StartsSection(Flatten(pieces))
    ensures var text, behind := before + Flatten(pieces) + after, TakeBody(after);
      && Sections(text) == Glue(Sections(before) + pieces, behind) + Sections(after)
      && TakeBody(text) == TakeBody(before) + if Sections(before) + pieces == [] then behind else []
  {
    hide Sections, Flatten, Glue;
    var behind, rest := TakeBody(after), DropBody(after);
    assert after == behind + rest;
    assert before + Flatten(pieces) + after == before + Flatten(pieces) + behind + rest;
    SectionsAfterBody(behind, rest);
    SectionsAppend(before + Flatten(pieces) + behind, rest);
    TakeBodyWithin(before + Flatten(pieces) + behind, rest);
    SectionsGlue(before + Flatten(pieces), behind);
    SectionsAppend(before, Flatten(pieces));
    TakeBodyWithin(before, Flatten(pieces));
  }

  // ----- lines between the block and the next section -----

  lemma {:induction false} StripAppend(a: Text, b: Text, drop: set<SectionId>)
    requires StartsSection(b)
    ensures StripSections(a + b, drop) == StripSections(a, drop) + StripSections(b, drop)
    decreases |a|
  {
    hide DropBody, StartsSection;
    if a == [] {
      assert a + b == b;
      assert [] + StripSections(b, drop) == StripSections(b, drop);
    } else {
      assert (a + b)[1..] == a[1..] + b && (a + b)[0] == a[0];
      if a[0].Header? && a[0].id in drop {
        DropBodyWithin(a[1..], b);
        Shorter(a[1..]);
        StripAppend(DropBody(a[1..]), b, drop);
      } else {
        StripAppend(a[1..], b, drop);
        Associative(a[0], StripSections(a[1..], drop), StripSections(b, drop));
      }
    }
  }

  lemma Shorter(text: Text)
    ensures |DropBody(text)| <= |text|
  {
  }

  lemma DropBodyWithin(a: Text, b: Text)
    requires StartsSection(b) || !Headerless(a)
    ensures DropBody(a + b) == DropBody(a) + b
  {
    if a == [] {
      assert a + b == b;
    } else if !a[0].Header? {
      assert (a + b)[1..] == a[1..] + b;
      DropBodyWithin(a[1..], b);
    }
  }

  lemma {:induction false} NoLastHeader(text: Text)
    ensures LastHeader(text).None? <==> Headerless(text)
    ensures LastHeader(DropBody(text)) == LastHeader(text)
    ensures LastHeader(text).Some? ==> LastHeader(text).value in HeaderIds(text)
    decreases |text|
  {
    if text != [] {
      NoLastHeader(text[1..]);
      assert forall line :: line in text <==> line == text[0] || line in text[1..];
    }
  }

  lemma {:induction false} LastHeaderAppend(a: Text, b: Text)
    ensures LastHeader(a + b) == if LastHeader(b).Some? then LastHeader(b) else LastHeader(a)
    decreases |a|
  {
    if a == [] {
      assert a + b == b;
    } else {
      assert (a + b)[1..] == a[1..] + b;
      LastHeaderAppend(a[1..], b);
    }
  }

  predicate EndsIn(text: Text, drop: set<SectionId>) {
    LastHeader(text).Some? && LastHeader(text).value in drop
  }

  /** Lines behind a text are stripped exactly when the section they come to stand in is. */
  lemma {:induction false} StripGlue(a: Text, lines: Text, drop: set<SectionId>)
    requires Headerless(lines)
    ensures StripSections(a + lines, drop) == StripSections(a, drop) + if EndsIn(a, drop) then [] else lines
    decreases |a|
  {
    if a == [] {
      StripHeaderless(lines, [], drop);
      assert a + lines == lines + [] == lines;
    } else {
      assert (a + lines)[1..] == a[1..] + lines;
      if a[0].Header? && a[0].id in drop {
        if !Headerless(a[1..]) {
          StripGlue(DropBody(a[1..]), lines, drop);
        }
        StripGlueOwned(a, lines, drop);
      } else {
        StripGlue(a[1..], lines, drop);
        NoLastHeader(a[1..]);
        Associative(a[0], StripSections(a[1..], drop), if EndsIn(a, drop) then [] else lines);
      }
    }
  }

  lemma StripGlueOwned(a: Text, lines: Text, drop: set<SectionId>)
    requires Headerless(lines) && a != [] && a[0].Header? && a[0].id in drop
    requires var rest := DropBody(a[1..]);
      Headerless(a[1..])
      || StripSections(rest + lines, drop) == StripSections(rest, drop) + if EndsIn(rest, drop) then [] else lines
    ensures StripSections(a + lines, drop) == StripSections(a, drop) + if EndsIn(a, drop) then [] else lines
  {
    hide Headerless, DropBody;
    assert (a + lines)[1..] == a[1..] + lines;
    NoLastHeader(a[1..]);
    if Headerless(a[1..]) {
      NothingBehind(a[1..]);
      BothHeaderless(a[1..], lines);
      NothingBehind(a[1..] + lines);
    } else {
      DropBodyWithin(a[1..], lines);
    }
  }

  lemma BothHeaderless(a: Text, b: Text)
    requires Headerless(a) && Headerless(b)
    ensures Headerless(a + b)
  {
  }

  lemma NothingBehind(body: Text)
    requires Headerless(body)
    ensures DropBody(body) == []
  {
    if body != [] {
      NothingBehind(body[1..]);
    }
  }

  /** The lines behind the block come to stand in a section that the generated configuration owns. */
  predicate Swallowed(existing: Text, plan: Plan) {
    var b, e := IndexOf(existing, Begin), IndexOf(existing, End);
    b < e < |existing| && RetainedSections(existing[b + 1..e], plan) == [] && EndsIn(existing[..b], plan.owned)
  }

  /** The lines between the block and the next section survive if and only if they are not swallowed. */
  lemma LinesBehindTheBlock(existing: Text, plan: Plan)
    requires HasBlock(existing)
    ensures var b, e := IndexOf(existing, Begin), IndexOf(existing, End);
      var front := StripSections(existing[..b], plan.owned) + Retained(existing[b + 1..e], plan);
      var behind := TakeBody(existing[e + 1..]);
      var back := StripSections(DropBody(existing[e + 1..]), plan.owned);
      && (Base(existing, plan) == front + behind + back <==> behind == [] || !Swallowed(existing, plan))
      && (Swallowed(existing, plan) ==> Base(existing, plan) == front + back)
  {
    hide IndexOf, StripSections, Retained, RetainedSections, TakeBody, EndsIn, Headerless, HeaderIds;
    var b, e := IndexOf(existing, Begin), IndexOf(existing, End);
    var before, inner, after := existing[..b], existing[b + 1..e], existing[e + 1..];
    var behind, rest := TakeBody(after), DropBody(after);
    StripAround(before, inner, after, plan);
    Between(StripSections(before, plan.owned) + Retained(inner, plan), behind, StripSections(rest, plan.owned));
  }

  lemma Between(front: Text, behind: Text, back: Text)
    ensures front + behind + back == front + [] + back <==> behind == []
    ensures front + [] + back == front + back
  {
    if behind != [] {
      assert |front + behind + back| != |front + [] + back|;
    }
  }

  lemma StripAround(before: Text, inner: Text, after: Text, plan: Plan)
    ensures var swallowed := RetainedSections(inner, plan) == [] && EndsIn(before, plan.owned);
      StripSections(before + Retained(inner, plan) + after, plan.owned) ==
        StripSections(before, plan.owned) + Retained(inner, plan) + (if swallowed then [] else TakeBody(after))
        + StripSections(DropBody(after), plan.owned)
  {
    hide StripSections, Retained, RetainedSections, EndsIn;
    var behind, rest := TakeBody(after), DropBody(after);
    var user := before + Retained(inner, plan);
    assert user + after == user + behind + rest;
    StripAppend(user + behind, rest, plan.owned);
    StripGlue(user, behind, plan.owned);
    RetainedAreSections(inner, plan);
    StripAppend(before, Retained(inner, plan), plan.owned);
    RetainedStay(before, inner, plan);
  }

  lemma RetainedStay(before: Text, inner: Text, plan: Plan)
    ensures StripSections(Retained(inner, plan), plan.owned) == Retained(inner, plan)
    ensures EndsIn(before + Retained(inner, plan), plan.owned) <==>
      RetainedSections(inner, plan) == [] && EndsIn(before, plan.owned)
  {
    var retained := Retained(inner, plan);
    forall line | line in retained && line.Header? ensures line.id !in plan.owned {
      StripKeepsSections(inner, Written(plan));
      StripOnlyRemoves(inner, Written(plan), line);
    }
    StripNothing(retained, plan.owned);
    LastHeaderAppend(before, retained);
    NoLastHeader(retained);
    RetainedAreSections(inner, plan);
    if RetainedSections(inner, plan) != [] {
      assert retained != [];
      assert retained[0] in retained;
    }
  }

  const PRINTER := Header(Named("printer"), "[printer]")
  const MACRO := Header(Named("gcode_macro a"), "[gcode_macro a]")
  const MINE := Remark("# mine")
  const REPLACES_PRINTER := Plan({Named("printer")}, [], [PRINTER], [], false, false)

  /** A comment behind the block is lost when the section before the block is replaced. */
  lemma CommentBehindTheBlockIsLost()
    ensures var text := [PRINTER, Begin, IncludeLine(HARDWARE), End, MINE, MACRO];
      && !Malformed(text) && Swallowed(text, REPLACES_PRINTER)
      && MINE in text && MINE !in Reconcile(text, REPLACES_PRINTER).value
  {
    hide Malformed, Base, Swallowed;
    var text, plan := [PRINTER, Begin, IncludeLine(HARDWARE), End, MINE, MACRO], REPLACES_PRINTER;
    SwallowedComment();
    var base := Base(text, plan);
    assert MINE !in base by {
      LinesBehindTheBlock(text, plan);
      assert text[4..] == [MINE] + [MACRO];
      TakeBodyAppend([MINE], [MACRO]);
      StripOnlyRemoves([MACRO], plan.owned, MINE);
      StripOnlyRemoves([PRINTER], plan.owned, MINE);
    }
    assert MINE !in plan.generated + [Begin, End, IncludeLine(HARDWARE)];
    MovedLines(base, MINE);
  }

  lemma SwallowedComment()
    ensures var text := [PRINTER, Begin, IncludeLine(HARDWARE), End, MINE, MACRO];
      && !Malformed(text) && Swallowed(text, REPLACES_PRINTER) && HasBlock(text)
      && IndexOf(text, Begin) == 1 && IndexOf(text, End) == 3
      && text[..1] == [PRINTER] && RetainedSections(text[2..3], REPLACES_PRINTER) == []
  {
    var front, inner, post := [PRINTER], [IncludeLine(HARDWARE)], [MINE, MACRO];
    var text := [PRINTER, Begin, IncludeLine(HARDWARE), End, MINE, MACRO];
    FirstAt(front, Begin, inner + [End] + post);
    FirstAt(front + [Begin] + inner, End, post);
    assert text == front + [Begin] + (inner + [End] + post) == front + [Begin] + inner + [End] + post;
    assert text == front + ([Begin] + inner + [End]) + post && text[..1] == front && text[2..3] == inner;
    assert !Malformed(text) by {
      MarkersOf(front, inner, post, Begin);
      MarkersOf(front, inner, post, End);
      NoOccurrence(post, Begin);
      NoOccurrence(post, End);
    }
    assert LastHeader(front) == Some(Named("printer")) by { assert front[1..] == [] && LastHeader([]) == None; }
  }

  // ----- exactly one block -----

  lemma {:induction false} OccurrencesAppend(a: Text, b: Text, line: Line)
    ensures Occurrences(a + b, line) == Occurrences(a, line) + Occurrences(b, line)
    decreases |a|
  {
    if a == [] {
      assert a + b == b;
    } else {
      assert (a + b)[1..] == a[1..] + b;
      OccurrencesAppend(a[1..], b, line);
    }
  }

  lemma {:induction false} NoOccurrence(text: Text, line: Line)
    ensures Occurrences(text, line) == 0 <==> line !in text
    decreases |text|
  {
    if text != [] {
      NoOccurrence(text[1..], line);
      assert line in text <==> line == text[0] || line in text[1..];
    }
  }

  lemma {:induction false} StripOnlyRemoves(text: Text, drop: set<SectionId>, line: Line)
    ensures line in StripSections(text, drop) ==> line in text && !(line.Header? && line.id in drop)
    decreases |text|
  {
    if text != [] {
      if text[0].Header? && text[0].id in drop {
        StripOnlyRemoves(DropBody(text[1..]), drop, line);
      } else {
        StripOnlyRemoves(text[1..], drop, line);
      }
    }
  }

  lemma RetainedOnlyRemoves(inner: Text, plan: Plan, line: Line)
    ensures line in Retained(inner, plan) ==> line in inner
  {
    StripKeepsSections(inner, Written(plan));
    StripOnlyRemoves(inner, Written(plan), line);
  }

  /** Away from its markers, a text with one block has no marker. */
  lemma CutAtMarkers(text: Text, line: Line)
    requires !Malformed(text) && HasBlock(text) && line in {Begin, End}
    ensures var b, e := IndexOf(text, Begin), IndexOf(text, End);
      line !in text[..b] && line !in text[b + 1..e] && line !in text[e + 1..]
  {
    var b, e := IndexOf(text, Begin), IndexOf(text, End);
    assert text == text[..b] + [Begin] + text[b + 1..e] + [End] + text[e + 1..];
    OccurrencesAppend(text[..b] + [Begin] + text[b + 1..e] + [End], text[e + 1..], line);
    OccurrencesAppend(text[..b] + [Begin] + text[b + 1..e], [End], line);
    OccurrencesAppend(text[..b] + [Begin], text[b + 1..e], line);
    OccurrencesAppend(text[..b], [Begin], line);
    NoOccurrence(text[..b], line);
    NoOccurrence(text[b + 1..e], line);
    NoOccurrence(text[e + 1..], line);
    OneOccurrence(text, line, b, e);
  }

  lemma OneOccurrence(text: Text, line: Line, b: nat, e: nat)
    requires !Malformed(text) && line in {Begin, End} && b < e < |text| && text[b] == Begin && text[e] == End
    ensures Occurrences(text, line) == 1
  {
    NoOccurrence(text, line);
    assert text[b] in text && text[e] in text;
  }

  lemma BaseHasNoMarkers(existing: Text, plan: Plan, line: Line)
    requires !Malformed(existing) && HasBlock(existing) && line in {Begin, End}
    ensures line !in Base(existing, plan)
  {
    var b, e := IndexOf(existing, Begin), IndexOf(existing, End);
    CutAtMarkers(existing, line);
    RetainedOnlyRemoves(existing[b + 1..e], plan, line);
    StripOnlyRemoves(Outside(existing, plan), plan.owned, line);
  }

  lemma {:induction false} MovedLines(text: Text, line: Line)
    ensures line in MainsailLines(text) <==> line in text && IsMainsail(line)
    ensures line in WithoutMainsail(text) <==> line in text && !IsMainsail(line)
    decreases |text|
  {
    if text != [] {
      MovedLines(text[1..], line);
      assert line in text <==> line == text[0] || line in text[1..];
    }
  }

  function Inner(extra: Text, plan: Plan): Text {
    extra
    + (if plan.inline then plan.generated else [IncludeLine(HARDWARE)])
    + (if plan.macros then [IncludeLine(MACROS)] else [])
    + plan.calibration
  }

  /** The parts of a reconciled root around its markers, and no marker in them but for what the base has. */
  lemma ReconciledParts(existing: Text, plan: Plan, line: Line)
    requires Clean(plan) && !Malformed(existing) && line in {Begin, End}
    ensures var base := Base(existing, plan);
      var inner := Inner(BlockIncludes(base, plan), plan);
      && Reconcile(existing, plan).value == Lead(base, plan) + ([Begin] + inner + [End]) + UserPart(base, plan)
      && line !in Lead(base, plan) && line !in inner
      && (line in UserPart(base, plan) <==> line in base)
  {
    hide Base, StripSections, Malformed, MainsailLines, WithoutMainsail, Extra, HeaderIds;
    var base := Base(existing, plan);
    var extra := BlockIncludes(base, plan);
    MovedLines(base, line);
    MovedLines(Extra(plan.includes, HeaderIds(base)), line);
    ExtraIsGenerated(plan.includes, HeaderIds(base));
    ExtraIsGenerated(plan.includes, HeaderIds(base) + if plan.inline then {MAINSAIL} else {});
    assert Block(extra, plan) == [Begin] + Inner(extra, plan) + [End];
  }

  lemma MarkersOf(lead: Text, inner: Text, user: Text, line: Line)
    requires line in {Begin, End} && line !in lead && line !in inner
    ensures Occurrences(lead + ([Begin] + inner + [End]) + user, line) == 1 + Occurrences(user, line)
  {
    OccurrencesAppend(lead + ([Begin] + inner + [End]), user, line);
    OccurrencesAppend(lead, [Begin] + inner + [End], line);
    OccurrencesAppend([Begin] + inner, [End], line);
    OccurrencesAppend([Begin], inner, line);
    NoOccurrence(lead, line);
    NoOccurrence(inner, line);
  }

  lemma {:induction false} FirstAt(before: Text, line: Line, after: Text)
    requires line !in before
    ensures IndexOf(before + [line] + after, line) == |before|
    decreases |before|
  {
    if before == [] {
      assert (before + [line] + after)[0] == line;
    } else {
      assert (before + [line] + after)[1..] == before[1..] + [line] + after;
      FirstAt(before[1..], line, after);
    }
  }

  ghost predicate OneBlock(text: Text) {
    Occurrences(text, Begin) == 1 && Occurrences(text, End) == 1 && HasBlock(text)
  }

  /** No marker outside a block, or only in sections that are stripped anyway. */
  predicate MarkersInOrder(existing: Text, plan: Plan) {
    HasBlock(existing)
    || (Begin !in StripSections(existing, plan.owned) && End !in StripSections(existing, plan.owned))
  }

  /**
    The result has exactly one block if and only if the markers of the input are in order.  When they
    are not, it is malformed, and every later deployment is refused.
   */
  lemma ExactlyOneBlock(existing: Text, plan: Plan)
    requires Clean(plan) && !Malformed(existing)
    ensures OneBlock(Reconcile(existing, plan).value) <==> MarkersInOrder(existing, plan)
    ensures MarkersInOrder(existing, plan) <==> !Malformed(Reconcile(existing, plan).value)
  {
    hide Clean, Base, StripSections, Block, Lead, UserPart, OneBlock, Malformed, MarkersInOrder, Inner, BlockIncludes;
    var base := Base(existing, plan);
    ReconciledParts(existing, plan, Begin);
    ReconciledParts(existing, plan, End);
    OneBlockOfParts(Lead(base, plan), Inner(BlockIncludes(base, plan), plan), UserPart(base, plan));
    BaseMarkers(existing, plan);
  }

  /** A text around one block has one block exactly when nothing after it is a marker. */
  lemma OneBlockOfParts(lead: Text, inner: Text, user: Text)
    requires Begin !in lead && End !in lead && Begin !in inner && End !in inner
    ensures var text := lead + ([Begin] + inner + [End]) + user;
      && (OneBlock(text) <==> Begin !in user && End !in user)
      && (Malformed(text) <==> Begin in user || End in user)
  {
    hide Occurrences, IndexOf;
    var text := lead + ([Begin] + inner + [End]) + user;
    MarkersOf(lead, inner, user, Begin);
    MarkersOf(lead, inner, user, End);
    NoOccurrence(user, Begin);
    NoOccurrence(user, End);
    FirstAt(lead, Begin, inner + [End] + user);
    FirstAt(lead + [Begin] + inner, End, user);
    assert text == lead + [Begin] + (inner + [End] + user) == lead + [Begin] + inner + [End] + user;
  }

  lemma BaseMarkers(existing: Text, plan: Plan)
    requires !Malformed(existing)
    ensures MarkersInOrder(existing, plan) <==> Begin !in Base(existing, plan) && End !in Base(existing, plan)
  {
    if HasBlock(existing) {
      BaseHasNoMarkers(existing, plan, Begin);
      BaseHasNoMarkers(existing, plan, End);
    }
  }

  // ----- a second deployment changes nothing -----

  lemma {:induction false} KeepNothing(text: Text, drop: set<SectionId>)
    requires HeaderIds(text) <= drop
    ensures Keep(Sections(text), drop) == []
    decreases |text|
  {
    if text != [] {
      assert forall line :: line in text[1..] ==> line in text;
      assert HeaderIds(text[1..]) <= HeaderIds(text);
      KeepNothing(text[1..], drop);
      if text[0].Header? {
        SectionPiece(text);
        assert text[0].id in HeaderIds(text);
        Consing([text[0]] + TakeBody(text[1..]), Sections(text[1..]), drop);
      }
    }
  }

  lemma InnerIsGenerated(extra: Text, plan: Plan)
    requires Clean(plan) && forall line :: line in extra ==> line in plan.includes
    ensures Retained(Inner(extra, plan), plan) == []
  {
    var inner, drop := Inner(extra, plan), Written(plan);
    forall line | line in inner && line.Header? ensures line.id in drop {
      if line in extra {
        assert line.id in HeaderIds(plan.includes);
      } else if line in plan.generated {
        assert line.id in HeaderIds(plan.generated);
      } else if line in plan.calibration {
        assert line.id in HeaderIds(plan.calibration);
      }
    }
    KeepNothing(inner, drop);
  }

  lemma {:induction false} ExtraIsGenerated(includes: Text, present: set<SectionId>)
    ensures forall line :: line in Extra(includes, present) <==>
      line in includes && !(line.Header? && line.id in present)
  {
    if includes != [] {
      ExtraIsGenerated(includes[1..], present);
      assert forall line :: line in includes <==> line == includes[0] || line in includes[1..];
    }
  }

  lemma {:induction false} MainsailAppend(a: Text, b: Text)
    ensures MainsailLines(a + b) == MainsailLines(a) + MainsailLines(b)
    decreases |a|
  {
    hide IsMainsail;
    if a == [] {
      assert a + b == b;
      assert [] + MainsailLines(b) == MainsailLines(b);
    } else {
      assert (a + b)[1..] == a[1..] + b && (a + b)[0] == a[0];
      MainsailAppend(a[1..], b);
      var first := if IsMainsail(a[0]) then [a[0]] else [];
      assert first + (MainsailLines(a[1..]) + MainsailLines(b)) == first + MainsailLines(a[1..]) + MainsailLines(b);
    }
  }

  lemma {:induction false} RestAppend(a: Text, b: Text)
    ensures WithoutMainsail(a + b) == WithoutMainsail(a) + WithoutMainsail(b)
    decreases |a|
  {
    hide IsMainsail;
    if a == [] {
      assert a + b == b;
      assert [] + WithoutMainsail(b) == WithoutMainsail(b);
    } else {
      assert (a + b)[1..] == a[1..] + b && (a + b)[0] == a[0];
      RestAppend(a[1..], b);
      var first := if IsMainsail(a[0]) then [] else [a[0]];
      assert first + (WithoutMainsail(a[1..]) + WithoutMainsail(b)) == first + WithoutMainsail(a[1..]) + WithoutMainsail(b);
    }
  }

  lemma {:induction false} AllMainsail(text: Text)
    requires forall line :: line in text ==> IsMainsail(line)
    ensures MainsailLines(text) == text && WithoutMainsail(text) == []
    decreases |text|
  {
    if text != [] {
      AllMainsail(text[1..]);
    }
  }

  lemma {:induction false} NoMainsail(text: Text)
    requires forall line :: line in text ==> !IsMainsail(line)
    ensures MainsailLines(text) == [] && WithoutMainsail(text) == text
    decreases |text|
  {
    if text != [] {
      NoMainsail(text[1..]);
    }
  }

  lemma LeadIsMainsail(base: Text, plan: Plan)
    ensures forall line :: line in Lead(base, plan) ==> IsMainsail(line)
    ensures plan.inline ==>
      (Lead(base, plan) == [] <==> MAINSAIL !in HeaderIds(base) && MAINSAIL !in HeaderIds(plan.includes))
    ensures plan.inline ==> forall line :: line in UserPart(base, plan) ==> !IsMainsail(line) && line in base
  {
    forall line ensures line in MainsailLines(base) ==> IsMainsail(line) && line in base
      ensures line in base && IsMainsail(line) ==> line in MainsailLines(base)
      ensures line in WithoutMainsail(base) ==> !IsMainsail(line) && line in base
    {
      MovedLines(base, line);
    }
    var extra := Extra(plan.includes, HeaderIds(base));
    ExtraIsGenerated(plan.includes, HeaderIds(base));
    forall line ensures line in MainsailLines(extra) <==> line in extra && IsMainsail(line) {
      MovedLines(extra, line);
    }
    if plan.inline {
      LeadIsEmpty(base, extra, plan);
    }
  }

  lemma LeadIsEmpty(base: Text, extra: Text, plan: Plan)
    requires forall line :: line in extra <==> line in plan.includes && !(line.Header? && line.id in HeaderIds(base))
    ensures MainsailLines(base) + MainsailLines(extra) == [] <==>
      MAINSAIL !in HeaderIds(base) && MAINSAIL !in HeaderIds(plan.includes)
  {
    SomeMainsail(base);
    SomeMainsail(extra);
    if MAINSAIL !in HeaderIds(base) && MAINSAIL in HeaderIds(plan.includes) {
      var line :| line in plan.includes && line.Header? && line.id == MAINSAIL;
      assert line in extra;
    }
  }

  lemma SomeMainsail(text: Text)
    ensures MainsailLines(text) == [] <==> MAINSAIL !in HeaderIds(text)
  {
    if MAINSAIL in HeaderIds(text) {
      var line :| line in text && line.Header? && line.id == MAINSAIL;
      MovedLines(text, line);
    } else {
      NoMainsail(text);
    }
  }

  lemma OutsideOfParts(lead: Text, inner: Text, user: Text, plan: Plan)
    requires Begin !in lead && End !in lead && End !in inner
    ensures Outside(lead + ([Begin] + inner + [End]) + user, plan)
      == lead + Retained(inner, plan) + user
  {
    hide Retained, IndexOf;
    var r := lead + ([Begin] + inner + [End]) + user;
    FirstAt(lead, Begin, inner + [End] + user);
    FirstAt(lead + [Begin] + inner, End, user);
    assert r == lead + [Begin] + (inner + [End] + user);
    assert r == lead + [Begin] + inner + [End] + user;
    var b, e := |lead|, |lead| + 1 + |inner|;
    assert r[..b] == lead && r[b + 1..e] == inner && r[e + 1..] == user;
  }

  /** The base of a reconciled root: the Mainsail lines and the user's part. */
  lemma BaseOfReconciled(existing: Text, plan: Plan)
    requires Clean(plan) && !Malformed(existing) && MarkersInOrder(existing, plan)
    ensures var base := Base(existing, plan);
      Base(Reconcile(existing, plan).value, plan) == Lead(base, plan) + UserPart(base, plan)
  {
    hide Base, Clean, StripSections, Lead, UserPart, Retained, BlockIncludes, Inner, Outside, Malformed, MarkersInOrder;
    var base := Base(existing, plan);
    var lead, inner, user := Lead(base, plan), Inner(BlockIncludes(base, plan), plan), UserPart(base, plan);
    ReconciledParts(existing, plan, Begin);
    ReconciledParts(existing, plan, End);
    OutsideOfParts(lead, inner, user, plan);
    BlockIsGenerated(base, plan);
    assert lead + [] + user == lead + user;
    NothingOwned(existing, plan);
    BaseIs(Reconcile(existing, plan).value, plan);
  }

  lemma BaseIs(text: Text, plan: Plan)
    ensures Base(text, plan) == StripSections(Outside(text, plan), plan.owned)
  {
  }

  lemma BlockIsGenerated(base: Text, plan: Plan)
    requires Clean(plan)
    ensures Retained(Inner(BlockIncludes(base, plan), plan), plan) == []
  {
    ExtraIsGenerated(plan.includes, HeaderIds(base) + if plan.inline then {MAINSAIL} else {});
    InnerIsGenerated(BlockIncludes(base, plan), plan);
  }

  lemma NothingOwned(existing: Text, plan: Plan)
    requires Clean(plan)
    ensures var base := Base(existing, plan);
      StripSections(Lead(base, plan) + UserPart(base, plan), plan.owned) == Lead(base, plan) + UserPart(base, plan)
  {
    var base := Base(existing, plan);
    var text := Lead(base, plan) + UserPart(base, plan);
    LeadIsMainsail(base, plan);
    forall line | line in text && line.Header? ensures line.id !in plan.owned {
      if line in UserPart(base, plan) {
        StripOnlyRemoves(Outside(existing, plan), plan.owned, line);
      }
    }
    StripNothing(text, plan.owned);
  }

  /** Once reconciled, a root stays as it is: deploying the same configuration again changes nothing. */
  lemma ReconcileIsIdempotent(existing: Text, plan: Plan)
    requires Clean(plan) && !Malformed(existing) && MarkersInOrder(existing, plan)
    ensures var r := Reconcile(existing, plan).value;
      Reconcile(r, plan) == Success(r)
  {
    hide Base, Clean, StripSections, Retained, Block, Malformed, MarkersInOrder;
    var base := Base(existing, plan);
    var lead, user := Lead(base, plan), UserPart(base, plan);
    var r := Reconcile(existing, plan).value;
    ExactlyOneBlock(existing, plan);
    BaseOfReconciled(existing, plan);
    var again := lead + user;
    LeadIsMainsail(base, plan);
    if plan.inline {
      AllMainsail(lead);
      NoMainsail(user);
      MainsailAppend(lead, user);
      RestAppend(lead, user);
      assert lead + [] == lead && [] + user == user;
      SamePresence(base, plan);
      NoMoreMainsail(again, plan, lead);
    } else {
      assert again == base;
    }
  }

  lemma NoMoreMainsail(again: Text, plan: Plan, lead: Text)
    requires lead != [] ==> MAINSAIL in HeaderIds(again)
    requires lead == [] ==> MAINSAIL !in HeaderIds(plan.includes)
    ensures MainsailLines(Extra(plan.includes, HeaderIds(again))) == []
  {
    ExtraIsGenerated(plan.includes, HeaderIds(again));
    NoMainsail(Extra(plan.includes, HeaderIds(again)));
  }

  /** The headers of the moved lines and of the rest are those of the base, and at most the Mainsail include. */
  lemma SamePresence(base: Text, plan: Plan)
    requires plan.inline
    ensures var again := Lead(base, plan) + UserPart(base, plan);
      && HeaderIds(again) + {MAINSAIL} == HeaderIds(base) + {MAINSAIL}
      && (Lead(base, plan) != [] ==> MAINSAIL in HeaderIds(again))
      && (Lead(base, plan) == [] ==> MAINSAIL !in HeaderIds(plan.includes))
  {
    LeadIsMainsail(base, plan);
    var lead, user := Lead(base, plan), UserPart(base, plan);
    forall line ensures line in user <==> line in base && !IsMainsail(line) {
      MovedLines(base, line);
    }
    if lead != [] {
      assert lead[0] in lead + user;
    }
  }

  /** A root whose closing marker comes first is accepted once, and refused ever after. */
  lemma ReversedMarkersBreakTheRoot(plan: Plan)
    requires Clean(plan)
    ensures !Malformed([End, Begin]) && Malformed(Reconcile([End, Begin], plan).value)
  {
    var text := [End, Begin];
    assert text[1..] == [Begin] && [Begin][1..] == [];
    assert Occurrences([Begin], Begin) == 1 && Occurrences([Begin], End) == 0;
    assert StripSections(text, plan.owned) == [End] + StripSections([Begin], plan.owned);
    assert StripSections(text, plan.owned)[0] == End;
    ExactlyOneBlock(text, plan);
  }

  // ----- the root file as a whole -----

  const LEGACY := Remark("# This file was generated by KACE (Klipper Automated Configuration Ecosystem)")

  /** Klipper owns the file from the SAVE_CONFIG header on. */
  function Head(root: Text): Text {
    root[..IndexOf(root, SaveHeader)]
  }

  function Saved(root: Text): Text {
    root[IndexOf(root, SaveHeader)..]
  }

  function WithoutLine(text: Text, line: Line): Text {
    if text == [] then [] else (if text[0] == line then [] else [text[0]]) + WithoutLine(text[1..], line)
  }

  /** A file of the old layout includes a macro file that was confirmed absent. */
  predicate StaleMacros(head: Text, macrosAbsent: bool) {
    LEGACY in head && Begin !in head && LEGACY_MACROS in HeaderIds(head) && macrosAbsent
  }

  function Prepared(root: Text, macrosAbsent: bool): Text {
    var head := Head(root);
    WithoutLine(if StaleMacros(head, macrosAbsent) then StripSections(head, {LEGACY_MACROS}) else head, LAYOUT)
  }

  /** The planned `printer.cfg`. */
  function PlanRoot(root: Text, macrosAbsent: bool, plan: Plan): Result<Text, ()> {
    var reconciled := Reconcile(Prepared(root, macrosAbsent), plan);
    if reconciled.Failure? then reconciled
    else Success((if plan.inline then [LAYOUT] else []) + reconciled.value + Saved(root))
  }

  lemma {:induction false} WithoutLineDrops(text: Text, line: Line)
    ensures line !in WithoutLine(text, line)
    ensures forall l :: l in text && l != line ==> l in WithoutLine(text, line)
    ensures forall l :: l in WithoutLine(text, line) ==> l in text
    ensures line !in text ==> WithoutLine(text, line) == text
    decreases |text|
  {
    if text != [] {
      WithoutLineDrops(text[1..], line);
      assert forall l :: l in text <==> l == text[0] || l in text[1..];
    }
  }

  /** What the planned root is made of holds no line that the preparation took out. */
  lemma ReconciledLines(existing: Text, plan: Plan, line: Line)
    requires Clean(plan) && !Malformed(existing) && line in {SaveHeader, LAYOUT} && line !in existing
    ensures line !in Reconcile(existing, plan).value
  {
    if line in Reconcile(existing, plan).value {
      PlannedLines(existing, plan, line);
    }
  }

  lemma BaseOnlyKeeps(existing: Text, plan: Plan, line: Line)
    ensures line in Base(existing, plan) ==> line in existing
  {
    hide StripSections, Retained, IndexOf;
    StripOnlyRemoves(Outside(existing, plan), plan.owned, line);
    var b, e := IndexOf(existing, Begin), IndexOf(existing, End);
    if b < e < |existing| {
      RetainedOnlyRemoves(existing[b + 1..e], plan, line);
    }
  }

  /** The text from the SAVE_CONFIG header on is kept as it is, and only that text follows the header. */
  lemma SavedTextIsUntouched(root: Text, macrosAbsent: bool, plan: Plan)
    requires Clean(plan) && PlanRoot(root, macrosAbsent, plan).Success?
    ensures var planned := PlanRoot(root, macrosAbsent, plan).value;
      && Saved(planned) == Saved(root)
      && Head(planned) == (if plan.inline then [LAYOUT] else []) + Reconcile(Prepared(root, macrosAbsent), plan).value
  {
    hide Reconcile, Malformed, Prepared, Clean, Head, Saved;
    var existing := Prepared(root, macrosAbsent);
    NotMalformed(existing, plan);
    PreparedHasNoSave(root, macrosAbsent);
    ReconciledLines(existing, plan, SaveHeader);
    SavedAfter((if plan.inline then [LAYOUT] else []) + Reconcile(existing, plan).value, root);
  }

  lemma PreparedHasNoSave(root: Text, macrosAbsent: bool)
    ensures SaveHeader !in Prepared(root, macrosAbsent)
  {
    hide StripSections;
    var head := Head(root);
    StripOnlyRemoves(head, {LEGACY_MACROS}, SaveHeader);
    WithoutLineDrops(if StaleMacros(head, macrosAbsent) then StripSections(head, {LEGACY_MACROS}) else head, LAYOUT);
  }

  lemma SavedAfter(front: Text, root: Text)
    requires SaveHeader !in front
    ensures Saved(front + Saved(root)) == Saved(root) && Head(front + Saved(root)) == front
  {
    var saved := Saved(root);
    if saved == [] {
      assert front + saved == front;
      Missing(front, SaveHeader);
    } else {
      assert saved[0] == SaveHeader && saved == [SaveHeader] + saved[1..];
      FirstAt(front, SaveHeader, saved[1..]);
      assert front + saved == front + [SaveHeader] + saved[1..];
    }
  }

  lemma NotMalformed(existing: Text, plan: Plan)
    requires Reconcile(existing, plan).Success?
    ensures !Malformed(existing)
  {
  }

  lemma {:induction false} Missing(text: Text, line: Line)
    requires line !in text
    ensures IndexOf(text, line) == |text|
  {
    if text != [] {
      Missing(text[1..], line);
    }
  }

  /** The preparation takes out of a planned root what the planning put in front of it, and no more. */
  lemma PreparedAgain(planned: Text, reconciled: Text, macrosAbsent: bool, plan: Plan)
    requires Head(planned) == (if plan.inline then [LAYOUT] else []) + reconciled
    requires Begin in reconciled && LAYOUT !in reconciled
    ensures Prepared(planned, macrosAbsent) == reconciled
  {
    hide StripSections;
    WithoutLineDrops(reconciled, LAYOUT);
    if plan.inline {
      assert ([LAYOUT] + reconciled)[1..] == reconciled;
      assert [] + reconciled == reconciled;
    } else {
      assert [] + reconciled == reconciled;
    }
  }

  /** Planning over a planned root changes nothing, as long as the generated configuration is the same. */
  lemma PlanRootIsIdempotent(root: Text, macrosAbsent: bool, plan: Plan)
    requires Clean(plan) && PlanRoot(root, macrosAbsent, plan).Success?
    requires MarkersInOrder(Prepared(root, macrosAbsent), plan)
    ensures var planned := PlanRoot(root, macrosAbsent, plan).value;
      PlanRoot(planned, macrosAbsent, plan) == Success(planned)
  {
    hide Reconcile, Malformed, Clean, MarkersInOrder, Head, Saved, Prepared;
    var existing := Prepared(root, macrosAbsent);
    NotMalformed(existing, plan);
    var planned, reconciled := PlanRoot(root, macrosAbsent, plan).value, Reconcile(existing, plan).value;
    SavedTextIsUntouched(root, macrosAbsent, plan);
    HasMarker(existing, plan);
    PreparedHasNoLayout(root, macrosAbsent);
    ReconciledLines(existing, plan, LAYOUT);
    PreparedAgain(planned, reconciled, macrosAbsent, plan);
    ReconcileIsIdempotent(existing, plan);
  }

  lemma PreparedHasNoLayout(root: Text, macrosAbsent: bool)
    ensures LAYOUT !in Prepared(root, macrosAbsent)
  {
    hide StripSections;
    var head := Head(root);
    WithoutLineDrops(if StaleMacros(head, macrosAbsent) then StripSections(head, {LEGACY_MACROS}) else head, LAYOUT);
  }

  lemma HasMarker(existing: Text, plan: Plan)
    requires !Malformed(existing)
    ensures Begin in Reconcile(existing, plan).value
  {
    hide Base, Lead, UserPart;
    assert [Begin][0] in Block(BlockIncludes(Base(existing, plan), plan), plan);
  }

  // ----- what the planned root keeps -----

  /** The pieces without the line that marks the layout. */
  function Tidy(pieces: seq<Text>): seq<Text> {
    if pieces == [] then [] else [WithoutLine(pieces[0], LAYOUT)] + Tidy(pieces[1..])
  }

  /** The sections that the user added inside the block of the root layout. */
  function Inside(inner: Text, plan: Plan): seq<Text> {
    if plan.inline then Keep(Tidy(Sections(inner)), Written(plan)) else []
  }

  /** The sections around a block; the lines right behind it come to stand in the last one before. */
  function SectionsAround(before: Text, inner: Text, after: Text, plan: Plan): seq<Text> {
    Glue(Tidy(Sections(before)) + Inside(inner, plan), WithoutLine(TakeBody(after), LAYOUT)) + Tidy(Sections(after))
  }

  function FrontAround(before: Text, inner: Text, after: Text, plan: Plan): Text {
    WithoutLine(TakeBody(before), LAYOUT)
    + if Sections(before) == [] && Inside(inner, plan) == [] then WithoutLine(TakeBody(after), LAYOUT) else []
  }

  /** The sections of a root that planning starts from: those outside the block, without a stale include. */
  function UserSections(head: Text, macrosAbsent: bool, plan: Plan): seq<Text> {
    var b, e := IndexOf(head, Begin), IndexOf(head, End);
    if b < e < |head| then SectionsAround(head[..b], head[b + 1..e], head[e + 1..], plan)
    else Tidy(Keep(Sections(head), if StaleMacros(head, macrosAbsent) then {LEGACY_MACROS} else {}))
  }

  lemma {:induction false} WithoutLineAppend(a: Text, b: Text, line: Line)
    ensures WithoutLine(a + b, line) == WithoutLine(a, line) + WithoutLine(b, line)
    decreases |a|
  {
    if a == [] {
      assert a + b == b;
    } else {
      assert (a + b)[1..] == a[1..] + b;
      WithoutLineAppend(a[1..], b, line);
      if a[0] != line {
        Associative(a[0], WithoutLine(a[1..], line), WithoutLine(b, line));
      }
    }
  }

  lemma {:induction false} TidySections(text: Text)
    ensures Sections(WithoutLine(text, LAYOUT)) == Tidy(Sections(text))
    ensures TakeBody(WithoutLine(text, LAYOUT)) == WithoutLine(TakeBody(text), LAYOUT)
    decreases |text|
  {
    if text != [] {
      TidySections(text[1..]);
      var rest := WithoutLine(text[1..], LAYOUT);
      assert ([text[0]] + rest)[1..] == rest;
      if text[0].Header? {
        TidyHeader(text[0], TakeBody(text[1..]), Sections(text[1..]));
      } else {
        WithoutLineAppend([text[0]], TakeBody(text[1..]), LAYOUT);
        assert [text[0]][1..] == [];
        assert [] + rest == rest;
      }
    }
  }

  lemma TidyHeader(header: Line, body: Text, pieces: seq<Text>)
    requires header.Header?
    ensures Tidy([[header] + body] + pieces) == [[header] + WithoutLine(body, LAYOUT)] + Tidy(pieces)
  {
    assert ([header] + body)[1..] == body;
    assert ([[header] + body] + pieces)[1..] == pieces;
  }

  /** The text that planning starts from has the user's sections around its block, if it has one. */
  lemma PreparedOutside(root: Text, macrosAbsent: bool, plan: Plan)
    ensures Sections(Outside(Prepared(root, macrosAbsent), plan)) == UserSections(Head(root), macrosAbsent, plan)
    ensures TakeBody(Outside(Prepared(root, macrosAbsent), plan)) == UserFront(Head(root), plan)
  {
    hide Sections, TakeBody, Tidy, Keep, WithoutLine, Inside, StripSections;
    var head := Head(root);
    var b, e := IndexOf(head, Begin), IndexOf(head, End);
    if b < e < |head| {
      PreparedBlock(head, plan);
      assert Prepared(root, macrosAbsent) == WithoutLine(head, LAYOUT) by { assert head[b] in head; }
    } else {
      PreparedWhole(head, macrosAbsent);
      assert Outside(Prepared(root, macrosAbsent), plan) == Prepared(root, macrosAbsent) by {
        MarkersStay(head, macrosAbsent);
      }
    }
  }

  lemma PreparedBlock(head: Text, plan: Plan)
    requires HasBlock(head)
    ensures Sections(Outside(WithoutLine(head, LAYOUT), plan)) == UserSections(head, false, plan)
    ensures TakeBody(Outside(WithoutLine(head, LAYOUT), plan)) == UserFront(head, plan)
  {
    hide Sections, TakeBody, WithoutLine, Retained, SectionsAround, FrontAround, IndexOf, Outside, StaleMacros, StripSections, Keep;
    var b, e := IndexOf(head, Begin), IndexOf(head, End);
    AroundTheBlock(head, plan);
    TidyParts(head[..b], head[b + 1..e], head[e + 1..], plan);
  }

  lemma TidyParts(before: Text, inner: Text, after: Text, plan: Plan)
    ensures var text := WithoutLine(before, LAYOUT) + Retained(WithoutLine(inner, LAYOUT), plan) + WithoutLine(after, LAYOUT);
      && Sections(text) == SectionsAround(before, inner, after, plan)
      && TakeBody(text) == FrontAround(before, inner, after, plan)
  {
    hide Sections, TakeBody, Tidy, WithoutLine, Flatten, Glue, Keep;
    var within := WithoutLine(inner, LAYOUT);
    RetainedAreSections(within, plan);
    ThreeParts(WithoutLine(before, LAYOUT), RetainedSections(within, plan), WithoutLine(after, LAYOUT));
    TidySections(before);
    TidySections(inner);
    TidySections(after);
    TidyEmpty(Sections(before));
  }

  lemma TidyEmpty(pieces: seq<Text>)
    ensures Tidy(pieces) == [] <==> pieces == []
  {
  }

  lemma AroundTheBlock(head: Text, plan: Plan)
    requires HasBlock(head)
    ensures var b, e := IndexOf(head, Begin), IndexOf(head, End);
      var lead, within := WithoutLine(head[..b], LAYOUT), WithoutLine(head[b + 1..e], LAYOUT);
      Outside(WithoutLine(head, LAYOUT), plan) == lead + Retained(within, plan) + WithoutLine(head[e + 1..], LAYOUT)
  {
    hide WithoutLine, IndexOf, Outside, Retained;
    var b, e := IndexOf(head, Begin), IndexOf(head, End);
    var before, inner, after := head[..b], head[b + 1..e], head[e + 1..];
    assert head == before + ([Begin] + inner + [End]) + after;
    WithoutLineParts(before, inner, after);
    WithoutLineDrops(before, LAYOUT);
    WithoutLineDrops(inner, LAYOUT);
    NoMarkerBefore(head, b, e);
    OutsideOfParts(WithoutLine(before, LAYOUT), WithoutLine(inner, LAYOUT), WithoutLine(after, LAYOUT), plan);
  }

  lemma NoMarkerBefore(head: Text, b: nat, e: nat)
    requires b == IndexOf(head, Begin) < e == IndexOf(head, End) < |head|
    ensures Begin !in head[..b] && End !in head[..b] && End !in head[b + 1..e]
  {
    assert forall line :: line in head[..b] || line in head[b + 1..e] ==> line in head[..e];
  }

  lemma WithoutLineParts(before: Text, inner: Text, after: Text)
    ensures WithoutLine(before + ([Begin] + inner + [End]) + after, LAYOUT)
      == WithoutLine(before, LAYOUT) + ([Begin] + WithoutLine(inner, LAYOUT) + [End]) + WithoutLine(after, LAYOUT)
  {
    hide WithoutLine;
    WithoutLineAppend(before + ([Begin] + inner + [End]), after, LAYOUT);
    WithoutLineAppend(before, [Begin] + inner + [End], LAYOUT);
    WithoutLineAppend([Begin] + inner, [End], LAYOUT);
    WithoutLineAppend([Begin], inner, LAYOUT);
    WithoutLineDrops([Begin], LAYOUT);
    WithoutLineDrops([End], LAYOUT);
  }

  lemma PreparedWhole(head: Text, macrosAbsent: bool)
    ensures var stale := StaleMacros(head, macrosAbsent);
      var text := WithoutLine(if stale then StripSections(head, {LEGACY_MACROS}) else head, LAYOUT);
      && Sections(text) == Tidy(Keep(Sections(head), if stale then {LEGACY_MACROS} else {}))
      && TakeBody(text) == WithoutLine(TakeBody(head), LAYOUT)
  {
    hide Sections, TakeBody, Tidy, Keep, WithoutLine, Flatten, StripSections;
    KeepAll(Sections(head));
    TidySections(head);
    StripKeepsSections(head, {LEGACY_MACROS});
    TidySections(StripSections(head, {LEGACY_MACROS}));
    AreSections(head);
    KeptAreSections(Sections(head), {LEGACY_MACROS});
    SectionsOfPieces(Keep(Sections(head), {LEGACY_MACROS}));
    SectionsAfterBody(TakeBody(head), Flatten(Keep(Sections(head), {LEGACY_MACROS})));
    TakeBodyAppend(TakeBody(head), Flatten(Keep(Sections(head), {LEGACY_MACROS})));
  }

  /** The preparation makes no block where there was none. */
  lemma MarkersStay(head: Text, macrosAbsent: bool)
    requires !HasBlock(head)
    ensures !HasBlock(WithoutLine(if StaleMacros(head, macrosAbsent) then StripSections(head, {LEGACY_MACROS}) else head, LAYOUT))
  {
    hide StripSections;
    if StaleMacros(head, macrosAbsent) {
      StripOnlyRemoves(head, {LEGACY_MACROS}, Begin);
      var text := StripSections(head, {LEGACY_MACROS});
      WithoutLineDrops(text, LAYOUT);
      Missing(WithoutLine(text, LAYOUT), Begin);
    } else {
      OrderStays(head);
    }
  }

  lemma {:induction false} OrderStays(text: Text)
    ensures HasBlock(WithoutLine(text, LAYOUT)) <==> HasBlock(text)
    decreases |text|
  {
    hide HasBlock;
    if text != [] {
      OrderStays(text[1..]);
      var rest := WithoutLine(text[1..], LAYOUT);
      WithoutLineDrops(text[1..], LAYOUT);
      assert [] + rest == rest && [text[0]] + text[1..] == text;
      BlockStep(text[0], text[1..]);
      BlockStep(text[0], rest);
    }
  }

  lemma BlockStep(line: Line, rest: Text)
    ensures HasBlock([line] + rest) <==> if line == Begin then End in rest else line != End && HasBlock(rest)
  {
    assert ([line] + rest)[1..] == rest && rest[..|rest|] == rest;
    if End !in rest {
      Missing(rest, End);
    }
  }

  /** The lines before those sections. */
  function UserFront(head: Text, plan: Plan): Text {
    var b, e := IndexOf(head, Begin), IndexOf(head, End);
    if b < e < |head| then FrontAround(head[..b], head[b + 1..e], head[e + 1..], plan)
    else WithoutLine(TakeBody(head), LAYOUT)
  }

  /**
    Conservation for the whole file: behind the block come the user's lines and, in their order and
    verbatim but for the layout mark, the sections that the generated configuration does not own; in
    the root layout without the Mainsail include lines, which lead.  The saved text ends the file.
   */
  lemma PlannedRootKeepsUserContent(root: Text, macrosAbsent: bool, plan: Plan)
    requires PlanRoot(root, macrosAbsent, plan).Success?
    ensures var front := UserFront(Head(root), plan);
      var kept := Keep(UserSections(Head(root), macrosAbsent, plan), plan.owned);
      var user := front + Flatten(kept);
      && PlanRoot(root, macrosAbsent, plan).value
         == (if plan.inline then [LAYOUT] else []) + Lead(user, plan) + Block(BlockIncludes(user, plan), plan)
            + UserPart(user, plan) + Saved(root)
      && Sections(UserPart(user, plan)) == (if plan.inline then Joined(kept) else kept)
      && TakeBody(UserPart(user, plan)) == front + (if plan.inline then Loose(kept) else [])
  {
    hide Reconcile, Malformed, Prepared, Head, Saved, Keep, Sections, Joined, Loose, UserSections, UserFront, Outside, Lead,
      UserPart, Block, BlockIncludes, TakeBody, Flatten;
    var existing := Prepared(root, macrosAbsent);
    NotMalformed(existing, plan);
    UserContentSurvives(existing, plan);
    PreparedOutside(root, macrosAbsent, plan);
    var user := UserFront(Head(root), plan) + Flatten(Keep(UserSections(Head(root), macrosAbsent, plan), plan.owned));
    var mark, lead, block, rest :=
      if plan.inline then [LAYOUT] else [], Lead(user, plan), Block(BlockIncludes(user, plan), plan), UserPart(user, plan);
    assert mark + (lead + block + rest) == mark + lead + block + rest;
  }

  /** The include lines that KACE writes for its own files. */
  predicate OwnInclude(plan: Plan, line: Line) {
    (line == IncludeLine(HARDWARE) && !plan.inline) || (line == IncludeLine(MACROS) && plan.macros)
  }

  /** Where each line of a reconciled root comes from. */
  lemma PlannedLines(existing: Text, plan: Plan, line: Line)
    requires !Malformed(existing) && line in Reconcile(existing, plan).value
    ensures line in existing + plan.includes + plan.generated + plan.calibration + [Begin, End] || OwnInclude(plan, line)
  {
    hide Malformed, Base, MainsailLines, WithoutMainsail, Extra, HeaderIds;
    var base := Base(existing, plan);
    BaseOnlyKeeps(existing, plan, line);
    MovedLines(base, line);
    MovedLines(Extra(plan.includes, HeaderIds(base)), line);
    ExtraIsGenerated(plan.includes, HeaderIds(base) + if plan.inline then {MAINSAIL} else {});
    ExtraIsGenerated(plan.includes, HeaderIds(base));
  }

  /** The planned root includes what the root or the generated configuration included, and KACE's own files. */
  lemma PlannedIncludes(root: Text, macrosAbsent: bool, plan: Plan, line: Line)
    requires Clean(plan) && PlanRoot(root, macrosAbsent, plan).Success?
    requires line in PlanRoot(root, macrosAbsent, plan).value && line.Header? && line.id.Include?
    ensures line in root || line in plan.includes || OwnInclude(plan, line)
  {
    hide Reconcile, Malformed, Prepared, OwnInclude;
    var existing := Prepared(root, macrosAbsent);
    PlannedRootLines(root, macrosAbsent, plan, line);
    assert forall l :: l in plan.generated && l.Header? ==> l.id in HeaderIds(plan.generated);
    assert forall l :: l in plan.calibration && l.Header? ==> l.id in HeaderIds(plan.calibration);
  }

  lemma PlannedRootLines(root: Text, macrosAbsent: bool, plan: Plan, line: Line)
    requires PlanRoot(root, macrosAbsent, plan).Success? && line in PlanRoot(root, macrosAbsent, plan).value
    ensures line in root + plan.includes + plan.generated + plan.calibration + [Begin, End, LAYOUT] || OwnInclude(plan, line)
  {
    hide Reconcile, Malformed, Prepared, OwnInclude;
    var existing := Prepared(root, macrosAbsent);
    NotMalformed(existing, plan);
    if line in Reconcile(existing, plan).value {
      PlannedLines(existing, plan, line);
      if line in existing {
        PreparedOnlyKeeps(root, macrosAbsent, line);
      }
    }
  }

  lemma PreparedOnlyKeeps(root: Text, macrosAbsent: bool, line: Line)
    requires line in Prepared(root, macrosAbsent)
    ensures line in root
  {
    hide StripSections;
    var head := Head(root);
    StripOnlyRemoves(head, {LEGACY_MACROS}, line);
    WithoutLineDrops(if StaleMacros(head, macrosAbsent) then StripSections(head, {LEGACY_MACROS}) else head, LAYOUT);
  }

  // ----- what the block brings -----

  /** `part` is what is left of `whole` when some lines are taken out. */
  ghost predicate Subsequence(part: Text, whole: Text) {
    part == [] || (whole != [] && (if part[0] == whole[0] then Subsequence(part[1..], whole[1..])
                                   else Subsequence(part, whole[1..])))
  }

  predicate Present(text: Text, id: SectionId) {
    exists line :: line in text && line.Header? && line.id == id
  }

  /** A generated include line goes into the block when the user's text has no such include, and leads if it is Mainsail's. */
  predicate GoesInside(plan: Plan, user: Text, line: Line) {
    line in plan.includes && line.Header? && !Present(user, line.id) && !(plan.inline && line.id == MAINSAIL)
  }

  /** The lines in front of the block: the Mainsail includes of the user, or else the generated ones. */
  ghost predicate Leads(plan: Plan, user: Text, lead: Text) {
    forall line ::
      Occurrences(lead, line) ==
        if !plan.inline || !line.Header? || line.id != MAINSAIL then 0
        else Occurrences(user, line) + if Present(user, MAINSAIL) then 0 else Occurrences(plan.includes, line)
  }

  /** The generated includes that the block brings, each as often and in the order in which it is generated. */
  ghost predicate Brings(plan: Plan, user: Text, extra: Text) {
    && Subsequence(extra, plan.includes)
    && forall line :: Occurrences(extra, line) == if GoesInside(plan, user, line) then Occurrences(plan.includes, line) else 0
  }

  /** The planned root, part by part, around the user's text. */
  ghost predicate PlannedAs(planned: Text, plan: Plan, user: Text, saved: Text, lead: Text, extra: Text) {
    planned == (if plan.inline then [LAYOUT] else []) + lead
             + [Begin] + extra
             + (if plan.inline then plan.generated else [IncludeLine(HARDWARE)])
             + (if plan.macros then [IncludeLine(MACROS)] else [])
             + plan.calibration + [End]
             + UserPart(user, plan) + saved
  }

  lemma {:induction false} ExtraIsSubsequence(includes: Text, present: set<SectionId>)
    ensures Subsequence(Extra(includes, present), includes)
    decreases |includes|
  {
    if includes != [] {
      ExtraIsSubsequence(includes[1..], present);
      var rest := Extra(includes[1..], present);
      if includes[0].Header? && includes[0].id in present {
        assert [] + rest == rest;
        ExtraIsGenerated(includes[1..], present);
        assert includes[0] !in rest;
      } else {
        assert ([includes[0]] + rest)[1..] == rest;
      }
    }
  }

  lemma {:induction false} ExtraCounts(includes: Text, present: set<SectionId>, line: Line)
    ensures Occurrences(Extra(includes, present), line) ==
      if line.Header? && line.id in present then 0 else Occurrences(includes, line)
    decreases |includes|
  {
    if includes != [] {
      var first := if includes[0].Header? && includes[0].id in present then [] else [includes[0]];
      OccurrencesAppend(first, Extra(includes[1..], present), line);
      ExtraCounts(includes[1..], present, line);
      assert Occurrences([includes[0]], line) == if includes[0] == line then 1 else 0;
    }
  }

  lemma {:induction false} MainsailCounts(text: Text, line: Line)
    ensures Occurrences(MainsailLines(text), line) == if IsMainsail(line) then Occurrences(text, line) else 0
    decreases |text|
  {
    if text != [] {
      var first := if IsMainsail(text[0]) then [text[0]] else [];
      OccurrencesAppend(first, MainsailLines(text[1..]), line);
      MainsailCounts(text[1..], line);
      assert Occurrences([text[0]], line) == if text[0] == line then 1 else 0;
    }
  }

  lemma PresentMeans(text: Text, id: SectionId)
    ensures Present(text, id) <==> id in HeaderIds(text)
  {
  }

  lemma LeadLeads(plan: Plan, user: Text)
    ensures Leads(plan, user, Lead(user, plan))
  {
    hide MainsailLines, Extra, HeaderIds;
    var ids := HeaderIds(user);
    PresentMeans(user, MAINSAIL);
    forall line
      ensures Occurrences(Lead(user, plan), line) ==
        if !plan.inline || !IsMainsail(line) then 0
        else Occurrences(user, line) + if Present(user, MAINSAIL) then 0 else Occurrences(plan.includes, line)
    {
      MainsailCounts(user, line);
      MainsailCounts(Extra(plan.includes, ids), line);
      ExtraCounts(plan.includes, ids, line);
      OccurrencesAppend(MainsailLines(user), MainsailLines(Extra(plan.includes, ids)), line);
    }
  }

  lemma ExtraBrings(plan: Plan, user: Text)
    requires forall line :: line in plan.includes ==> line.Header?
    ensures Brings(plan, user, BlockIncludes(user, plan))
  {
    hide Extra, HeaderIds, Subsequence;
    var present := HeaderIds(user) + if plan.inline then {MAINSAIL} else {};
    ExtraIsSubsequence(plan.includes, present);
    forall line
      ensures Occurrences(BlockIncludes(user, plan), line)
           == if GoesInside(plan, user, line) then Occurrences(plan.includes, line) else 0
    {
      ExtraCounts(plan.includes, present, line);
      NoOccurrence(plan.includes, line);
      if line.Header? {
        PresentMeans(user, line.id);
      }
    }
  }

  /**
    The whole planned root: the lead, then the block with the generated includes that the user's text
    lacks and with everything else that was generated, then the user's text and what Klipper saved.
   */
  lemma PlannedRootBrings(root: Text, macrosAbsent: bool, plan: Plan) returns (lead: Text, extra: Text)
    requires Clean(plan) && PlanRoot(root, macrosAbsent, plan).Success?
    ensures var user := UserFront(Head(root), plan) + Flatten(Keep(UserSections(Head(root), macrosAbsent, plan), plan.owned));
      && PlannedAs(PlanRoot(root, macrosAbsent, plan).value, plan, user, Saved(root), lead, extra)
      && Leads(plan, user, lead) && Brings(plan, user, extra)
  {
    hide PlanRoot, UserFront, UserSections, Keep, Flatten, Saved, Head, UserPart, Lead, BlockIncludes;
    var user := UserFront(Head(root), plan) + Flatten(Keep(UserSections(Head(root), macrosAbsent, plan), plan.owned));
    PlannedRootKeepsUserContent(root, macrosAbsent, plan);
    lead, extra := Lead(user, plan), BlockIncludes(user, plan);
    LeadLeads(plan, user);
    ExtraBrings(plan, user);
    BlockParts(plan, user, Saved(root), lead, extra);
  }

  lemma BlockParts(plan: Plan, user: Text, saved: Text, lead: Text, extra: Text)
    ensures PlannedAs((if plan.inline then [LAYOUT] else []) + lead + Block(extra, plan) + UserPart(user, plan) + saved,
                      plan, user, saved, lead, extra)
  {
    hide UserPart;
    var mark, rest := if plan.inline then [LAYOUT] else [], UserPart(user, plan);
    var content := if plan.inline then plan.generated else [IncludeLine(HARDWARE)];
    var macros := if plan.macros then [IncludeLine(MACROS)] else [];
    assert Block(extra, plan) == [Begin] + extra + content + macros + plan.calibration + [End];
    assert mark + lead + ([Begin] + extra + content + macros + plan.calibration + [End]) + rest + saved
        == mark + lead + [Begin] + extra + content + macros + plan.calibration + [End] + rest + saved;
  }

  /**
    A generated include is in the planned root, in front of the user's text unless the user has it: then
    nothing is added, and as often as it is generated otherwise.
   */
  lemma GeneratedIncludes(root: Text, macrosAbsent: bool, plan: Plan, line: Line) returns (managed: Text)
    requires Clean(plan) && PlanRoot(root, macrosAbsent, plan).Success? && line in plan.includes
    requires line.id != HARDWARE && line.id != MACROS
    ensures var user := UserFront(Head(root), plan) + Flatten(Keep(UserSections(Head(root), macrosAbsent, plan), plan.owned));
      && PlanRoot(root, macrosAbsent, plan).value == managed + UserPart(user, plan) + Saved(root)
      && (!Present(user, line.id) ==> Occurrences(managed, line) == Occurrences(plan.includes, line))
      && (Present(user, line.id) ==>
            Occurrences(managed, line) == if plan.inline && line.id == MAINSAIL then Occurrences(user, line) else 0)
      && Present(managed + UserPart(user, plan), line.id)
  {
    hide PlanRoot, UserFront, UserSections, Keep, Flatten, Saved, Head, UserPart, Occurrences, Leads, Brings;
    var user := UserFront(Head(root), plan) + Flatten(Keep(UserSections(Head(root), macrosAbsent, plan), plan.owned));
    var lead, extra := PlannedRootBrings(root, macrosAbsent, plan);
    managed := ManagedPart(plan, user, lead, extra, line);
    PlannedAsManaged(PlanRoot(root, macrosAbsent, plan).value, plan, user, Saved(root), lead, extra, managed);
    IncludePresent(plan, user, lead, extra, managed, line);
  }

  function Managed(plan: Plan, lead: Text, extra: Text): Text {
    (if plan.inline then [LAYOUT] else []) + lead + [Begin] + extra
    + (if plan.inline then plan.generated else [IncludeLine(HARDWARE)])
    + (if plan.macros then [IncludeLine(MACROS)] else [])
    + plan.calibration + [End]
  }

  lemma PlannedAsManaged(planned: Text, plan: Plan, user: Text, saved: Text, lead: Text, extra: Text, managed: Text)
    requires PlannedAs(planned, plan, user, saved, lead, extra) && managed == Managed(plan, lead, extra)
    ensures planned == managed + UserPart(user, plan) + saved
  {
    hide UserPart;
  }

  lemma ManagedPart(plan: Plan, user: Text, lead: Text, extra: Text, line: Line) returns (managed: Text)
    requires Clean(plan) && Leads(plan, user, lead) && Brings(plan, user, extra) && line in plan.includes
    requires line.id != HARDWARE && line.id != MACROS
    ensures managed == Managed(plan, lead, extra)
    ensures !Present(user, line.id) ==> Occurrences(managed, line) == Occurrences(plan.includes, line)
    ensures Present(user, line.id) ==>
      Occurrences(managed, line) == if plan.inline && line.id == MAINSAIL then Occurrences(user, line) else 0
  {
    hide Occurrences, Subsequence;
    managed := Managed(plan, lead, extra);
    var mark := if plan.inline then [LAYOUT] else [];
    var content := if plan.inline then plan.generated else [IncludeLine(HARDWARE)];
    var macros := if plan.macros then [IncludeLine(MACROS)] else [];
    var others := content + macros + plan.calibration + [End];
    assert managed == mark + lead + [Begin] + extra + others;
    OccurrencesAppend(mark + lead + [Begin] + extra, others, line);
    OccurrencesAppend(mark + lead + [Begin], extra, line);
    OccurrencesAppend(mark + lead, [Begin], line);
    OccurrencesAppend(mark, lead, line);
    NoOccurrence(mark, line);
    NoOccurrence([Begin], line);
    OthersLack(plan, line, content, macros);
    NoOccurrence(others, line);
    NoOccurrence(user, line);
  }

  lemma OthersLack(plan: Plan, line: Line, content: Text, macros: Text)
    requires Clean(plan) && line in plan.includes && line.id != HARDWARE && line.id != MACROS
    requires content == if plan.inline then plan.generated else [IncludeLine(HARDWARE)]
    requires macros == if plan.macros then [IncludeLine(MACROS)] else []
    ensures line !in content + macros + plan.calibration + [End]
  {
    assert line.id.Include?;
    assert forall l :: l in plan.generated && l.Header? ==> l.id in HeaderIds(plan.generated);
    assert forall l :: l in plan.calibration && l.Header? ==> l.id in HeaderIds(plan.calibration);
  }

  lemma IncludePresent(plan: Plan, user: Text, lead: Text, extra: Text, managed: Text, line: Line)
    requires line in plan.includes && line.Header? && managed == Managed(plan, lead, extra) && Leads(plan, user, lead)
    requires !Present(user, line.id) ==> Occurrences(managed, line) == Occurrences(plan.includes, line)
    ensures Present(managed + UserPart(user, plan), line.id)
  {
    hide Occurrences;
    if !Present(user, line.id) {
      NoOccurrence(managed, line);
      NoOccurrence(plan.includes, line);
      assert line in managed + UserPart(user, plan);
    } else {
      var l :| l in user && l.Header? && l.id == line.id;
      if plan.inline && line.id == MAINSAIL {
        NoOccurrence(lead, l);
        NoOccurrence(user, l);
        assert l in managed by { assert l in lead; }
      } else {
        MovedLines(user, l);
        assert l in UserPart(user, plan);
      }
      assert l in managed + UserPart(user, plan);
    }
  }

  lemma {:induction false} KeepMembers(pieces: seq<Text>, drop: set<SectionId>, piece: Text)
    ensures piece in Keep(pieces, drop) <==> piece in pieces && !(IsSection(piece) && piece[0].id in drop)
    decreases |pieces|
  {
    if pieces != [] {
      KeepMembers(pieces[1..], drop, piece);
      assert piece in pieces <==> piece == pieces[0] || piece in pieces[1..];
    }
  }

  /** A section inside the block is the user's, and kept, exactly when the layout is the root's and KACE did not write it. */
  lemma SectionInsideIsKept(inner: Text, plan: Plan, piece: Text)
    requires piece in Sections(inner)
    ensures piece != [] && piece[0].Header?
    ensures piece in RetainedSections(inner, plan) <==>
      && plan.inline && piece[0].id !in plan.owned && !Present(plan.includes, piece[0].id)
      && piece[0].id != Include("kace/generated-hardware.cfg") && piece[0].id != Include("kace/generated-macros.cfg")
  {
    AreSections(inner);
    KeepMembers(Sections(inner), Written(plan), piece);
    PresentMeans(plan.includes, piece[0].id);
  }

  /** The include of the old macro file is dropped exactly when an old file without a block includes what is absent. */
  lemma StaleMacrosAreDropped(root: Text, macrosAbsent: bool)
    ensures Present(Prepared(root, macrosAbsent), Include("macros.cfg")) <==>
      && Present(Head(root), Include("macros.cfg"))
      && (Begin in Head(root) || !macrosAbsent || LEGACY !in Head(root))
  {
    hide StripSections, WithoutLine, Head;
    var head := Head(root);
    var stripped := if StaleMacros(head, macrosAbsent) then StripSections(head, {LEGACY_MACROS}) else head;
    WithoutLineDrops(stripped, LAYOUT);
    PresentMeans(head, LEGACY_MACROS);
    forall line | line in StripSections(head, {LEGACY_MACROS}) ensures !(line.Header? && line.id == LEGACY_MACROS) {
      StripOnlyRemoves(head, {LEGACY_MACROS}, line);
    }
  }
}

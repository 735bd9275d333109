/** A probe section that the user pasted: parsed, and completed with the offsets it does not give. */
module CustomProbe {
  import opened Prelude

  datatype Kind = Primary | Companion | Rejected
  datatype Offset = X | Y | Z

  /**
    A line of the section.  An entry gives the offset that Klipper reads on it, if any, and whether a
    colon stands behind the name; Klipper takes an equals sign as well, the parser does not.
   */
  datatype Line =
    | Skip
    | Malformed
    | Section(name: string, kind: Kind)
    | Entry(offset: Option<Offset>, colon: bool, value: Option<real>)

  type Offsets = map<Offset, real>

  datatype ProbeError = BadHeader | BadSection | NoSectionFirst | Duplicate | NotNumeric | NotOnePrimary | Required

  datatype Probe = Probe(lines: seq<Line>, primary: string, offsets: Offsets)

  /** The variables of the parser's loop. */
  datatype Scan = Scan(first: Option<Kind>, primary: string, count: nat, current: Option<Kind>, offsets: Offsets)

  const START := Scan(None, "", 0, None, map[])

  function Step(s: Scan, line: Line): Result<Scan, ProbeError> {
    match line
    case Skip => Success(s)
    case Malformed => Failure(BadHeader)
    case Section(name, kind) =>
      if kind == Rejected then Failure(BadSection)
      else
        var first := if s.first.None? then Some(kind) else s.first;
        if kind == Primary then Success(Scan(first, name, s.count + 1, Some(kind), s.offsets))
        else Success(s.(first := first, current := Some(kind)))
    case Entry(offset, colon, value) =>
      if s.first.None? then Failure(NoSectionFirst)
      else if s.current != Some(Primary) || offset.None? || !colon then Success(s)
      else if offset.value in s.offsets then Failure(Duplicate)
      else if value.None? then Failure(NotNumeric)
      else Success(s.(offsets := s.offsets[offset.value := value.value]))
  }

  function ScanAll(s: Scan, lines: seq<Line>): Result<Scan, ProbeError>
    decreases |lines|
  {
    if lines == [] then Success(s)
    else
      var next := Step(s, lines[0]);
      if next.Failure? then next else ScanAll(next.value, lines[1..])
  }

  function Parsed(lines: seq<Line>): Result<Probe, ProbeError> {
    var s := ScanAll(START, lines);
    if s.Failure? then Failure(s.error)
    else if s.value.first != Some(Primary) || s.value.count != 1 then Failure(NotOnePrimary)
    else Success(Probe(lines, s.value.primary, s.value.offsets))
  }

  /** `parse_custom_probe_config`. */
  method Parse(lines: seq<Line>) returns (r: Result<Probe, ProbeError>)
    ensures r == Parsed(lines)
  {
    var s := START;
    assert lines[0..] == lines;
    for i := 0 to |lines|
      invariant ScanAll(s, lines[i..]) == ScanAll(START, lines)
    {
      assert lines[i..][0] == lines[i] && lines[i..][1..] == lines[i + 1..];
      var next := Step(s, lines[i]);
      if next.Failure? {
        return Failure(next.error);
      }
      s := next.value;
    }
    if s.first != Some(Primary) || s.count != 1 {
      return Failure(NotOnePrimary);
    }
    r := Success(Probe(lines, s.primary, s.offsets));
  }

  /** The offsets that are to be added, in order; each one must be supplied. */
  function Additions(p: Probe, x: Option<real>, y: Option<real>): Result<seq<Line>, ProbeError> {
    var wantX, wantY := X !in p.offsets, Y !in p.offsets;
    if (wantX && x.None?) || (wantY && y.None?) then Failure(Required)
    else Success((if wantX then [Entry(Some(X), true, x)] else []) + (if wantY then [Entry(Some(Y), true, y)] else []))
  }

  predicate Headerless(lines: seq<Line>) {
    forall i :: 0 <= i < |lines| ==> !lines[i].Section?
  }

  method SectionEnd(lines: seq<Line>, start: nat) returns (end: nat)
    requires start <= |lines|
    ensures start <= end <= |lines| && Headerless(lines[start..end]) && (end < |lines| ==> lines[end].Section?)
  {
    end := start;
    while end < |lines| && !lines[end].Section?
      invariant start <= end <= |lines| && Headerless(lines[start..end])
    {
      assert lines[start..end + 1] == lines[start..end] + [lines[end]];
      end := end + 1;
    }
  }

  /** `with_missing_offsets`: the additions end the primary section, and the text is parsed again. */
  method WithMissingOffsets(p: Probe, x: Option<real>, y: Option<real>) returns (r: Result<Probe, ProbeError>)
    requires Parsed(p.lines) == Success(p)
    ensures r.Success? <==> (X in p.offsets || x.Some?) && (Y in p.offsets || y.Some?)
    ensures r.Failure? ==> r.error == Required
    ensures r.Success? ==>
      && r.value.primary == p.primary
      && (forall o :: o in p.offsets ==> o in r.value.offsets && r.value.offsets[o] == p.offsets[o])
      && X in r.value.offsets && (X !in p.offsets ==> Some(r.value.offsets[X]) == x)
      && Y in r.value.offsets && (Y !in p.offsets ==> Some(r.value.offsets[Y]) == y)
      && (Z in r.value.offsets <==> Z in p.offsets)
    ensures r.Success? ==> exists at: nat, added: seq<Line> ::
      at <= |p.lines| && |added| <= 2 && r.value.lines == p.lines[..at] + added + p.lines[at..]
    ensures r.Success? ==> forall o :: o in {X, Y} ==>
      && Given(PrimaryBody(r.value.lines), o, true) == 1
      && Given(PrimaryBody(r.value.lines), o, false) == Given(PrimaryBody(p.lines), o, false)
  {
    hide Parsed, FirstSection, PrimaryBody, Given;
    var additions :- Additions(p, x, y);
    RecognisedOnce(p.lines);
    if additions == [] {
      assert p.lines == p.lines[..0] + [] + p.lines[0..];
      return Success(p);
    }
    PrimaryComesFirst(p.lines);
    var at := 0;
    while !(p.lines[at].Section? && p.lines[at].name == p.primary)
      invariant 0 <= at <= FirstSection(p.lines) < |p.lines|
      decreases |p.lines| - at
    {
      at := at + 1;
    }
    ghost var primary := at;
    at := SectionEnd(p.lines, at + 1);
    Completed(p, primary, at, additions, x, y);
    CompletedBody(p, primary, at, additions, x, y);
    r := Parse(p.lines[..at] + additions + p.lines[at..]);
  }

  function FirstSection(lines: seq<Line>): (i: nat)
    ensures i <= |lines| && (i < |lines| ==> lines[i].Section?) && Headerless(lines[..i])
  {
    if lines == [] || lines[0].Section? then 0 else 1 + FirstSection(lines[1..])
  }

  lemma {:induction false} ScanAppend(s: Scan, a: seq<Line>, b: seq<Line>)
    ensures ScanAll(s, a + b) ==
      if ScanAll(s, a).Success? then ScanAll(ScanAll(s, a).value, b) else ScanAll(s, a)
    decreases |a|
  {
    if a == [] {
      assert a + b == b;
    } else {
      assert (a + b)[1..] == a[1..] + b;
      if Step(s, a[0]).Success? {
        ScanAppend(Step(s, a[0]).value, a[1..], b);
      }
    }
  }

  lemma {:induction false} ScanFacts(s: Scan, lines: seq<Line>)
    requires ScanAll(s, lines).Success?
    ensures var e := ScanAll(s, lines).value;
      && e.count >= s.count && (e.count == s.count ==> e.primary == s.primary)
      && (s.first.Some? ==> e.first == s.first)
      && (forall o :: o in s.offsets ==> o in e.offsets && e.offsets[o] == s.offsets[o])
      && (Headerless(lines) ==> e.count == s.count && e.first == s.first && e.current == s.current)
      && (Headerless(lines) && s.first.None? ==> e == s)
    decreases |lines|
  {
    if lines != [] {
      ScanFacts(Step(s, lines[0]).value, lines[1..]);
    }
  }

  /** Outside primary sections no offset is read, and what was read before makes no difference. */
  lemma {:induction false} RestIgnoresOffsets(s: Scan, lines: seq<Line>, offsets: Offsets)
    requires ScanAll(s, lines).Success? && ScanAll(s, lines).value.count == s.count
    requires s.first.Some? && (s.current != Some(Primary) || lines == [] || lines[0].Section?)
    ensures ScanAll(s, lines).value.offsets == s.offsets
    ensures ScanAll(s.(offsets := offsets), lines) == Success(ScanAll(s, lines).value.(offsets := offsets))
    decreases |lines|
  {
    if lines != [] {
      var next := Step(s, lines[0]).value;
      ScanFacts(next, lines[1..]);
      assert next.count == s.count && next.current != Some(Primary);
      assert Step(s.(offsets := offsets), lines[0]) == Success(next.(offsets := offsets));
      RestIgnoresOffsets(next, lines[1..], offsets);
    }
  }

  /** In a block that parses, the first section is the primary one. */
  lemma PrimaryComesFirst(lines: seq<Line>)
    requires Parsed(lines).Success?
    ensures var i := FirstSection(lines);
      && i < |lines| && lines[i].kind == Primary && lines[i].name == Parsed(lines).value.primary
      && ScanAll(START, lines[..i]) == Success(START)
  {
    hide ScanAll, FirstSection;
    var i := FirstSection(lines);
    assert lines == lines[..i] + lines[i..];
    ScanAppend(START, lines[..i], lines[i..]);
    ScanFacts(START, lines[..i]);
    if i < |lines| {
      var rest := lines[i + 1..];
      assert lines[i..] == [lines[i]] + rest;
      ScanCons(START, lines[i], rest);
      ScanFacts(Step(START, lines[i]).value, rest);
    } else {
      assert lines[i..] == [];
      ScanNothing(START);
    }
  }

  lemma ScanNothing(s: Scan)
    ensures ScanAll(s, []) == Success(s)
  {
  }

  lemma Completed(p: Probe, i: nat, at: nat, additions: seq<Line>, x: Option<real>, y: Option<real>)
    requires Parsed(p.lines) == Success(p) && i == FirstSection(p.lines) < at <= |p.lines|
    requires Headerless(p.lines[i + 1..at]) && (at < |p.lines| ==> p.lines[at].Section?)
    requires Additions(p, x, y) == Success(additions)
    ensures var offsets := p.offsets + (if X in p.offsets then map[] else map[X := x.value])
                           + (if Y in p.offsets then map[] else map[Y := y.value]);
      Parsed(p.lines[..at] + additions + p.lines[at..])
      == Success(Probe(p.lines[..at] + additions + p.lines[at..], p.primary, offsets))
  {
    hide Step, ScanAll, FirstSection, Additions;
    var head, rest := p.lines[..at], p.lines[at..];
    assert p.lines == head + rest;
    ScanAppend(START, head, rest);
    PrimarySection(p.lines, i, at);
    var s := ScanAll(START, head).value;
    ScanFacts(s, rest);
    RestIgnoresOffsets(s, rest, s.offsets);
    AdditionsSet(s, p, additions, x, y);
    var t := ScanAll(s, additions).value;
    RestIgnoresOffsets(s, rest, t.offsets);
    ScanAppend(START, head + additions, rest);
    ScanAppend(START, head, additions);
  }

  /** Up to the end of the primary section one primary section was read, and it is the current one. */
  lemma PrimarySection(lines: seq<Line>, i: nat, at: nat)
    requires Parsed(lines).Success? && i == FirstSection(lines) < at <= |lines| && Headerless(lines[i + 1..at])
    ensures ScanAll(START, lines[..at]).Success?
    ensures var s := ScanAll(START, lines[..at]).value;
      s.first == Some(Primary) && s.current == Some(Primary) && s.count == 1
  {
    hide Step, ScanAll, FirstSection;
    PrimaryComesFirst(lines);
    var before, header, body := lines[..i], lines[i], lines[i + 1..at];
    assert lines == lines[..at] + lines[at..];
    ScanAppend(START, lines[..at], lines[at..]);
    assert lines[..at] == before + ([header] + body);
    ScanAppend(START, before, [header] + body);
    ScanCons(START, header, body);
    HeaderStep(header);
    ScanFacts(Step(START, header).value, body);
  }

  lemma HeaderStep(header: Line)
    requires header.Section? && header.kind == Primary
    ensures Step(START, header) == Success(Scan(Some(Primary), header.name, 1, Some(Primary), map[]))
  {
  }

  lemma ScanCons(s: Scan, line: Line, rest: seq<Line>)
    ensures ScanAll(s, [line] + rest) == if Step(s, line).Success? then ScanAll(Step(s, line).value, rest) else Failure(Step(s, line).error)
  {
    assert ([line] + rest)[1..] == rest;
  }

  lemma AdditionsSet(s: Scan, p: Probe, additions: seq<Line>, x: Option<real>, y: Option<real>)
    requires s.first == Some(Primary) && s.current == Some(Primary) && s.offsets == p.offsets
    requires Additions(p, x, y) == Success(additions)
    ensures ScanAll(s, additions) == Success(s.(offsets :=
      p.offsets + (if X in p.offsets then map[] else map[X := x.value]) + (if Y in p.offsets then map[] else map[Y := y.value])))
  {
    var none: Offsets := map[];
    assert p.offsets + none == p.offsets;
    var withX := if X in p.offsets then p.offsets else p.offsets[X := x.value];
    var t := s.(offsets := withX);
    if X !in p.offsets {
      ScanCons(s, Entry(Some(X), true, x), if Y in p.offsets then [] else [Entry(Some(Y), true, y)]);
      assert p.offsets + map[X := x.value] == withX;
    }
    if Y !in p.offsets {
      ScanCons(t, Entry(Some(Y), true, y), []);
      assert withX + map[Y := y.value] == withX[Y := y.value];
      assert [Entry(Some(Y), true, y)] + [] == [Entry(Some(Y), true, y)] == [] + [Entry(Some(Y), true, y)];
    }
    assert withX + none == withX;
  }

  // ----- offsets the parser does not recognise -----

  function UpToSection(lines: seq<Line>): (body: seq<Line>)
    ensures body <= lines && Headerless(body) && (|body| < |lines| ==> lines[|body|].Section?)
  {
    if lines == [] || lines[0].Section? then [] else [lines[0]] + UpToSection(lines[1..])
  }

  /** The lines of the first section. */
  function PrimaryBody(lines: seq<Line>): seq<Line> {
    var i := FirstSection(lines);
    if i < |lines| then UpToSection(lines[i + 1..]) else []
  }

  /** How often an offset is given, with or without a colon. */
  function Given(lines: seq<Line>, o: Offset, colon: bool): nat {
    if lines == [] then 0
    else Given(lines[1..], o, colon)
         + if lines[0].Entry? && lines[0].offset == Some(o) && lines[0].colon == colon then 1 else 0
  }

  lemma {:induction false} GivenAppend(a: seq<Line>, b: seq<Line>, o: Offset, colon: bool)
    ensures Given(a + b, o, colon) == Given(a, o, colon) + Given(b, o, colon)
    decreases |a|
  {
    if a == [] {
      assert a + b == b;
    } else {
      assert (a + b)[1..] == a[1..] + b;
      GivenAppend(a[1..], b, o, colon);
    }
  }

  lemma {:induction false} UpToAppend(body: seq<Line>, rest: seq<Line>)
    requires Headerless(body) && (rest == [] || rest[0].Section?)
    ensures UpToSection(body + rest) == body
    decreases |body|
  {
    if body == [] {
      assert body + rest == rest;
    } else {
      assert (body + rest)[1..] == body[1..] + rest;
      UpToAppend(body[1..], rest);
    }
  }

  lemma {:induction false} RecognisedIn(s: Scan, body: seq<Line>, o: Offset)
    requires Headerless(body) && s.first.Some? && s.current == Some(Primary) && ScanAll(s, body).Success?
    ensures var e := ScanAll(s, body).value;
      && (o in s.offsets ==> o in e.offsets)
      && Given(body, o, true) == if o in e.offsets && o !in s.offsets then 1 else 0
    decreases |body|
  {
    if body != [] {
      RecognisedIn(Step(s, body[0]).value, body[1..], o);
    }
  }

  /** Each offset the parser recognised is given with a colon once, the others never. */
  lemma RecognisedOnce(lines: seq<Line>)
    requires Parsed(lines).Success?
    ensures forall o :: Given(PrimaryBody(lines), o, true) == if o in Parsed(lines).value.offsets then 1 else 0
  {
    hide Step, ScanAll, FirstSection, Given, UpToSection;
    PrimaryComesFirst(lines);
    var i := FirstSection(lines);
    var header, body := lines[i], UpToSection(lines[i + 1..]);
    var at := i + 1 + |body|;
    assert lines[i + 1..at] == body && lines[..at] == lines[..i] + ([header] + body);
    PrimarySection(lines, i, at);
    ScanAppend(START, lines[..i], [header] + body);
    ScanCons(START, header, body);
    HeaderStep(header);
    forall o ensures Given(body, o, true) == if o in Parsed(lines).value.offsets then 1 else 0 {
      RecognisedIn(Step(START, header).value, body, o);
      OffsetsOfPrimary(lines, i, at);
    }
  }

  lemma OffsetsOfPrimary(lines: seq<Line>, i: nat, at: nat)
    requires Parsed(lines).Success? && i == FirstSection(lines) < at <= |lines|
    requires Headerless(lines[i + 1..at]) && (at < |lines| ==> lines[at].Section?)
    ensures ScanAll(START, lines[..at]).Success?
    ensures Parsed(lines).value.offsets == ScanAll(START, lines[..at]).value.offsets
  {
    hide Step, ScanAll, FirstSection;
    PrimarySection(lines, i, at);
    var s := ScanAll(START, lines[..at]).value;
    assert lines == lines[..at] + lines[at..];
    ScanAppend(START, lines[..at], lines[at..]);
    ScanFacts(s, lines[at..]);
    RestIgnoresOffsets(s, lines[at..], s.offsets);
  }

  lemma CompletedBody(p: Probe, i: nat, at: nat, additions: seq<Line>, x: Option<real>, y: Option<real>)
    requires Parsed(p.lines) == Success(p) && i == FirstSection(p.lines) < at <= |p.lines|
    requires Headerless(p.lines[i + 1..at]) && (at < |p.lines| ==> p.lines[at].Section?)
    requires Additions(p, x, y) == Success(additions)
    ensures var lines := p.lines[..at] + additions + p.lines[at..];
      forall o :: o in {X, Y} ==>
        && Given(PrimaryBody(lines), o, true) == Given(PrimaryBody(p.lines), o, true) + (if o in p.offsets then 0 else 1)
        && Given(PrimaryBody(lines), o, false) == Given(PrimaryBody(p.lines), o, false)
  {
    hide Parsed, ScanAll, FirstSection, Given, UpToSection;
    var before, body, rest := p.lines[..i + 1], p.lines[i + 1..at], p.lines[at..];
    var lines := p.lines[..at] + additions + rest;
    assert lines == before + (body + additions + rest) && p.lines == before + (body + rest);
    SameFirst(p.lines, lines, i);
    assert lines[i + 1..] == body + additions + rest && p.lines[i + 1..] == body + rest;
    UpToAppend(body, rest);
    UpToAppend(body + additions, rest);
    forall o, colon | o in {X, Y}
      ensures Given(body + additions, o, colon) == Given(body, o, colon) + if colon && o !in p.offsets then 1 else 0
    {
      GivenAppend(body, additions, o, colon);
      GivenAdditions(p, additions, x, y, o, colon);
    }
  }

  lemma GivenAdditions(p: Probe, additions: seq<Line>, x: Option<real>, y: Option<real>, o: Offset, colon: bool)
    requires Additions(p, x, y) == Success(additions) && o in {X, Y}
    ensures Given(additions, o, colon) == if colon && o !in p.offsets then 1 else 0
  {
    var first := if X !in p.offsets then [Entry(Some(X), true, x)] else [];
    var second := if Y !in p.offsets then [Entry(Some(Y), true, y)] else [];
    assert additions == first + second;
    GivenAppend(first, second, o, colon);
    assert X !in p.offsets ==> first[1..] == [];
    assert Y !in p.offsets ==> second[1..] == [];
  }

  lemma SameFirst(a: seq<Line>, b: seq<Line>, i: nat)
    requires i == FirstSection(a) < |a| && i < |b| && a[..i + 1] == b[..i + 1]
    ensures FirstSection(b) == i
    decreases i
  {
    assert a[..i + 1][0] == b[..i + 1][0];
    if i > 0 {
      assert a[1..][..i] == a[..i + 1][1..] == b[..i + 1][1..] == b[1..][..i];
      SameFirst(a[1..], b[1..], i - 1);
    }
  }

  /** An offset that stands with an equals sign is overlooked, asked for, and given a second time. */
  lemma EqualsSignIsOverlooked(value: real)
    ensures var lines := [Section("probe", Primary), Entry(Some(X), false, Some(value)), Entry(Some(Y), true, Some(0.0))];
      && Parsed(lines) == Success(Probe(lines, "probe", map[Y := 0.0])) && Given(PrimaryBody(lines), X, false) == 1
  {
    var header, x, y := Section("probe", Primary), Entry(Some(X), false, Some(value)), Entry(Some(Y), true, Some(0.0));
    var lines := [header, x, y];
    assert lines == [header] + [x, y] && [x, y] == [x] + [y] && [y] == [y] + [];
    ScanCons(START, header, [x, y]);
    HeaderStep(header);
    var s := Step(START, header).value;
    ScanCons(s, x, [y]);
    ScanCons(s, y, []);
    assert lines[1..] == [x, y];
    UpToAppend([x, y], []);
    assert [x, y] + [] == [x, y] && [x][1..] == [] && [y][1..] == [];
    assert FirstSection(lines) == 0;
    GivenAppend([x], [y], X, false);
    assert Given([x], X, false) == 1 && Given([y], X, false) == 0;
  }

  // ----- when a block parses -----

  /** No line is malformed and no section is refused by the policy. */
  predicate Clean(lines: seq<Line>) {
    forall i :: 0 <= i < |lines| ==> !lines[i].Malformed? && (lines[i].Section? ==> lines[i].kind != Rejected)
  }

  /** A line on which the parser reads an offset. */
  predicate Recognised(line: Line) {
    line.Entry? && line.offset.Some? && line.colon
  }

  /** The lines read each offset at most once, always with a number. */
  predicate Numbers(body: seq<Line>) {
    && (forall o :: Given(body, o, true) <= 1)
    && (forall i :: 0 <= i < |body| && Recognised(body[i]) ==> body[i].value.Some?)
  }

  /** The same, behind lines that gave some offsets already. */
  predicate Fits(offsets: Offsets, body: seq<Line>) {
    && (forall o :: Given(body, o, true) <= if o in offsets then 0 else 1)
    && (forall i :: 0 <= i < |body| && Recognised(body[i]) ==> body[i].value.Some?)
  }

  predicate NoPrimary(lines: seq<Line>) {
    forall i :: 0 <= i < |lines| ==> !(lines[i].Section? && lines[i].kind == Primary)
  }

  lemma {:induction false} ScanBefore(lines: seq<Line>)
    requires Headerless(lines)
    ensures ScanAll(START, lines).Success? <==> Clean(lines) && forall i :: 0 <= i < |lines| ==> !lines[i].Entry?
    ensures ScanAll(START, lines).Success? ==> ScanAll(START, lines).value == START
    decreases |lines|
  {
    if lines != [] {
      assert lines == [lines[0]] + lines[1..];
      ScanBefore(lines[1..]);
    }
  }

  lemma {:induction false} ScanBody(s: Scan, body: seq<Line>)
    requires Headerless(body) && s.first.Some? && s.current == Some(Primary)
    ensures ScanAll(s, body).Success? <==> Clean(body) && Fits(s.offsets, body)
    ensures ScanAll(s, body).Success? ==> forall i :: 0 <= i < |body| && Recognised(body[i]) ==>
      && body[i].offset.value in ScanAll(s, body).value.offsets
      && Some(ScanAll(s, body).value.offsets[body[i].offset.value]) == body[i].value
    decreases |body|
  {
    if body != [] {
      var next := Step(s, body[0]);
      StepFits(s, body);
      if next.Success? {
        ScanBody(next.value, body[1..]);
        if ScanAll(s, body).Success? {
          ScanFacts(next.value, body[1..]);
        }
      }
    }
  }

  /** One line more of the primary section. */
  lemma StepFits(s: Scan, body: seq<Line>)
    requires body != [] && !body[0].Section? && s.first.Some? && s.current == Some(Primary)
    ensures Clean(body) && Fits(s.offsets, body) <==>
      && Step(s, body[0]).Success?
      && Clean(body[1..]) && Fits(Step(s, body[0]).value.offsets, body[1..])
  {
    var first, rest := body[0], body[1..];
    assert body == [first] + rest;
    assert Clean(body) <==> !first.Malformed? && Clean(rest);
    hide Clean, Fits, Given;
    FitsStep(s.offsets, first, rest);
  }

  lemma FitsStep(offsets: Offsets, first: Line, rest: seq<Line>)
    ensures !Recognised(first) ==> (Fits(offsets, [first] + rest) <==> Fits(offsets, rest))
    ensures Recognised(first) && Fits(offsets, [first] + rest) ==> first.offset.value !in offsets && first.value.Some?
    ensures Recognised(first) && first.offset.value !in offsets && first.value.Some? ==>
      (Fits(offsets, [first] + rest) <==> Fits(offsets[first.offset.value := first.value.value], rest))
  {
    var body := [first] + rest;
    assert body[1..] == rest && body[0] == first;
    assert forall i :: 0 <= i < |rest| ==> rest[i] == body[i + 1];
    assert forall i :: 0 < i < |body| ==> body[i] == rest[i - 1];
    if Recognised(first) {
      var given := first.offset.value;
      assert Given(body, given, true) == Given(rest, given, true) + 1;
      assert forall o :: o != given ==> Given(body, o, true) == Given(rest, o, true);
      if given !in offsets && first.value.Some? {
        var more := offsets[given := first.value.value];
        assert forall o :: o in more <==> o in offsets || o == given;
        assert given in more && given !in offsets;
      }
    }
  }

  lemma {:induction false} ScanRest(s: Scan, lines: seq<Line>)
    requires s.first.Some? && (s.current != Some(Primary) || lines == [] || lines[0].Section?)
    ensures ScanAll(s, lines).Success? && ScanAll(s, lines).value.count == s.count <==> Clean(lines) && NoPrimary(lines)
    decreases |lines|
  {
    if lines != [] {
      assert lines == [lines[0]] + lines[1..];
      var next := Step(s, lines[0]);
      if next.Success? {
        if ScanAll(s, lines).Success? {
          ScanFacts(next.value, lines[1..]);
        }
        if next.value.count == s.count {
          ScanRest(next.value, lines[1..]);
        }
      }
    }
  }

  /** Literally when a block parses, and which values its offsets then have. */
  lemma ParsesExactly(lines: seq<Line>)
    ensures var i := FirstSection(lines);
      Parsed(lines).Success? <==>
        && i < |lines| && lines[i].kind == Primary
        && Clean(lines)
        && (forall k :: 0 <= k < i ==> !lines[k].Entry?)
        && (forall k :: i < k < |lines| && lines[k].Section? ==> lines[k].kind != Primary)
        && Numbers(PrimaryBody(lines))
    ensures Parsed(lines).Success? ==> forall k :: 0 <= k < |PrimaryBody(lines)| && Recognised(PrimaryBody(lines)[k]) ==>
      && PrimaryBody(lines)[k].offset.value in Parsed(lines).value.offsets
      && Some(Parsed(lines).value.offsets[PrimaryBody(lines)[k].offset.value]) == PrimaryBody(lines)[k].value
  {
    hide Step, ScanAll, FirstSection, Given, UpToSection;
    var i := FirstSection(lines);
    if i == |lines| || lines[i].kind != Primary {
      if Parsed(lines).Success? {
        PrimaryComesFirst(lines);
      }
    } else {
      ParsesFromPrimary(lines, i);
    }
  }

  lemma ParsesFromPrimary(lines: seq<Line>, i: nat)
    requires i == FirstSection(lines) < |lines| && lines[i].kind == Primary
    ensures Parsed(lines).Success? <==>
      && Clean(lines)
      && (forall k :: 0 <= k < i ==> !lines[k].Entry?)
      && (forall k :: i < k < |lines| && lines[k].Section? ==> lines[k].kind != Primary)
      && Numbers(PrimaryBody(lines))
    ensures Parsed(lines).Success? ==> forall k :: 0 <= k < |PrimaryBody(lines)| && Recognised(PrimaryBody(lines)[k]) ==>
      && PrimaryBody(lines)[k].offset.value in Parsed(lines).value.offsets
      && Some(Parsed(lines).value.offsets[PrimaryBody(lines)[k].offset.value]) == PrimaryBody(lines)[k].value
  {
    hide Step, ScanAll, FirstSection, Given, UpToSection;
    hide NoPrimary, Numbers, Clean, Recognised;
    var before, header, body := lines[..i], lines[i], UpToSection(lines[i + 1..]);
    var rest := lines[i + 1 + |body|..];
    assert lines == before + ([header] + (body + rest));
    Headers(lines, i, body, rest);
    ScanAppend(START, before, [header] + (body + rest));
    ScanBefore(before);
    assert forall k :: 0 <= k < i ==> before[k] == lines[k];
    if Clean(before) && forall k :: 0 <= k < i ==> !lines[k].Entry? {
      ScanCons(START, header, body + rest);
      HeaderStep(header);
      ScanBodyAndRest(Step(START, header).value, body, rest);
    }
  }

  lemma ScanBodyAndRest(s: Scan, body: seq<Line>, rest: seq<Line>)
    requires Headerless(body) && (rest == [] || rest[0].Section?)
    requires s.first == Some(Primary) && s.current == Some(Primary) && s.offsets == map[] && s.count == 1
    ensures ScanAll(s, body + rest).Success? && ScanAll(s, body + rest).value.count == 1
      <==> Clean(body) && Clean(rest) && NoPrimary(rest) && Numbers(body)
    ensures ScanAll(s, body + rest).Success? ==> ScanAll(s, body + rest).value.first == Some(Primary)
    ensures ScanAll(s, body + rest).Success? && ScanAll(s, body + rest).value.count == 1 ==>
      forall k :: 0 <= k < |body| && Recognised(body[k]) ==>
        && body[k].offset.value in ScanAll(s, body + rest).value.offsets
        && Some(ScanAll(s, body + rest).value.offsets[body[k].offset.value]) == body[k].value
  {
    hide Step, ScanAll, Given, NoPrimary, Clean;
    ScanAppend(s, body, rest);
    assert Fits(s.offsets, body) <==> Numbers(body);
    ScanBody(s, body);
    if ScanAll(s, body).Success? {
      var t := ScanAll(s, body).value;
      ScanFacts(s, body);
      ScanRest(t, rest);
      if ScanAll(t, rest).Success? {
        ScanFacts(t, rest);
      }
    }
  }

  /** What the lines of a block say, part by part. */
  lemma Headers(lines: seq<Line>, i: nat, body: seq<Line>, rest: seq<Line>)
    requires i < |lines| && lines[i].Section? && lines[i].kind == Primary
    requires lines[i + 1..] == body + rest && Headerless(body)
    ensures Clean(lines) <==> Clean(lines[..i]) && Clean(body) && Clean(rest)
    ensures NoPrimary(rest) <==> forall k :: i < k < |lines| && lines[k].Section? ==> lines[k].kind != Primary
  {
    assert lines == lines[..i] + [lines[i]] + body + rest;
    assert forall k :: 0 <= k < |rest| ==> rest[k] == lines[i + 1 + |body| + k];
    assert forall k :: 0 <= k < |body| ==> body[k] == lines[i + 1 + k];
    assert forall k :: i + 1 + |body| <= k < |lines| ==> lines[k] == rest[k - (i + 1 + |body|)];
    assert forall k :: i < k < i + 1 + |body| ==> lines[k] == body[k - (i + 1)];
  }
}

/**
  Board pin aliases.

  Every declared alias is flattened while it is added, so that a lookup is one step.  The theorem
  is that this incremental flattening ends where following the declared chain ends, whatever the
  order of the declarations, and that a cycle is reported exactly when one is declared.
 */
module PinAliases {
  import opened Prelude

  type Pin = string
  type Mcu = string
  type AliasMap = map<Pin, Pin>

  datatype Declaration = Declaration(alias: Pin, target: Pin)

  datatype AliasError = ConflictingReservation | InvalidTarget | ConflictingAlias | CyclicAlias | ReservedPin

  /** One MCU: flattened aliases, and header positions that are not pins. */
  datatype Table = Table(aliases: AliasMap, reserved: AliasMap)

  const EMPTY := Table(map[], map[])

  // ----- one declaration -----

  predicate IsReservation(target: Pin) {
    target != "" && target[0] == '<' && target[|target| - 1] == '>'
  }

  predicate IsSpace(c: char) {
    c in {' ', '\t', '\n', '\r'}
  }

  predicate ValidTarget(target: Pin) {
    forall i :: 0 <= i < |target| ==> target[i] !in {'^', '~', '!', ':'} && !IsSpace(target[i])
  }

  /** A header position that is no pin is declared in angle brackets; a target carries no modifier, MCU or space. */
  lemma DeclarationForms(target: Pin)
    ensures IsReservation(target) <==> target != "" && "<" <= target && target[|target| - 1] == '>'
    ensures ValidTarget(target) <==>
      && '^' !in target && '~' !in target && '!' !in target && ':' !in target
      && ' ' !in target && '\t' !in target && '\n' !in target && '\r' !in target
  {
  }

  function Physical(aliases: AliasMap, pin: Pin): Pin {
    if pin in aliases then aliases[pin] else pin
  }

  /** The new alias, and every earlier alias that ended in its name, now end in `physical`. */
  function Redirect<K>(aliases: map<K, K>, alias: K, physical: K): map<K, K> {
    map pin | pin in aliases.Keys + {alias} ::
      if pin == alias || aliases[pin] == alias then physical else aliases[pin]
  }

  /** The table after all aliases but those in `todo` were redirected. */
  function Redirected<K>(first: map<K, K>, todo: set<K>, alias: K, physical: K): map<K, K> {
    map pin | pin in first :: if pin !in todo && first[pin] == alias then physical else first[pin]
  }

  lemma RedirectOne<K>(first: map<K, K>, todo: set<K>, alias: K, physical: K, name: K)
    requires name in todo && todo <= first.Keys
    ensures var before := Redirected(first, todo, alias, physical);
      && name in before
      && Redirected(first, todo - {name}, alias, physical) == if before[name] == alias then before[name := physical] else before
  {
  }

  lemma RedirectEnds<K>(given: map<K, K>, alias: K, physical: K)
    ensures var first := given[alias := physical];
      && Redirected(first, first.Keys, alias, physical) == first
      && Redirected(first, {}, alias, physical) == Redirect(given, alias, physical)
  {
  }

  function AddSpec(table: Table, d: Declaration): Result<Table, AliasError> {
    if IsReservation(d.target) then
      if d.alias in table.reserved && table.reserved[d.alias] != d.target then Failure(ConflictingReservation)
      else Success(table.(reserved := table.reserved[d.alias := d.target]))
    else if !ValidTarget(d.target) then Failure(InvalidTarget)
    else if d.alias in table.aliases && table.aliases[d.alias] != d.target then Failure(ConflictingAlias)
    else
      var physical := Physical(table.aliases, d.target);
      if physical == d.alias then Failure(CyclicAlias)
      else Success(table.(aliases := Redirect(table.aliases, d.alias, physical)))
  }

  function AddAllSpec(table: Table, ds: seq<Declaration>): Result<Table, AliasError> {
    if ds == [] then Success(table)
    else
      var before :- AddAllSpec(table, ds[..|ds| - 1]);
      AddSpec(before, ds[|ds| - 1])
  }

  // ----- the declared graph -----

  /** What the configuration says: each alias points to its target as written. */
  function Declared(ds: seq<Declaration>): AliasMap {
    if ds == [] then map[]
    else
      var before := Declared(ds[..|ds| - 1]);
      var d := ds[|ds| - 1];
      if IsReservation(d.target) then before else before[d.alias := d.target]
  }

  /** Each ordinary alias once, targets that are pin names, and reservations that agree. */
  predicate WellDeclared(ds: seq<Declaration>) {
    && (forall i :: 0 <= i < |ds| && !IsReservation(ds[i].target) ==> ValidTarget(ds[i].target))
    && (forall i, j :: 0 <= i < j < |ds| && ds[i].alias == ds[j].alias ==>
          (IsReservation(ds[i].target) || IsReservation(ds[j].target))
          && (IsReservation(ds[i].target) && IsReservation(ds[j].target) ==> ds[i].target == ds[j].target))
  }

  /** Where `n` steps along the declarations lead, if each of them starts in an alias. */
  function Walk(graph: AliasMap, pin: Pin, n: nat): Option<Pin>
    decreases n
  {
    if n == 0 then Some(pin)
    else if pin in graph then Walk(graph, graph[pin], n - 1)
    else None
  }

  /** The declared chain from `pin` ends in `end`, which is no alias. */
  ghost predicate EndsIn(graph: AliasMap, pin: Pin, end: Pin) {
    end !in graph && exists n: nat :: Walk(graph, pin, n) == Some(end)
  }

  ghost predicate OnCycle(graph: AliasMap, pin: Pin) {
    exists n: nat :: n > 0 && Walk(graph, pin, n) == Some(pin)
  }

  ghost predicate HasCycle(graph: AliasMap) {
    exists pin :: OnCycle(graph, pin)
  }

  /** `aliases` sends every declared alias to the end of its chain, and nothing else anywhere. */
  ghost predicate Flattens(aliases: AliasMap, graph: AliasMap) {
    && aliases.Keys == graph.Keys
    && forall pin :: pin in aliases ==> EndsIn(graph, pin, aliases[pin])
  }

  lemma {:induction false} WalkAdd(graph: AliasMap, pin: Pin, m: nat, n: nat)
    requires Walk(graph, pin, m).Some?
    ensures Walk(graph, pin, m + n) == Walk(graph, Walk(graph, pin, m).value, n)
    decreases m
  {
    if m > 0 {
      WalkAdd(graph, graph[pin], m - 1, n);
    }
  }

  lemma {:induction false} WalkGrows(graph: AliasMap, grown: AliasMap, pin: Pin, n: nat)
    requires Walk(graph, pin, n).Some?
    requires forall p :: p in graph ==> p in grown && grown[p] == graph[p]
    ensures Walk(grown, pin, n) == Walk(graph, pin, n)
    decreases n
  {
    if n > 0 {
      WalkGrows(graph, grown, graph[pin], n - 1);
    }
  }

  /** Following a chain is deterministic: it has one end. */
  lemma {:induction false} ChainEndUnique(graph: AliasMap, pin: Pin, e: Pin, f: Pin)
    requires EndsIn(graph, pin, e) && EndsIn(graph, pin, f)
    ensures e == f
  {
    var m: nat :| Walk(graph, pin, m) == Some(e);
    var n: nat :| Walk(graph, pin, n) == Some(f);
    if m <= n {
      WalkAdd(graph, pin, m, n - m);
    } else {
      WalkAdd(graph, pin, n, m - n);
    }
  }

  /** No chain that starts on a cycle ends. */
  lemma {:induction false} CycleNeverEnds(graph: AliasMap, pin: Pin, n: nat, m: nat, end: Pin)
    requires n > 0 && Walk(graph, pin, n) == Some(pin)
    requires Walk(graph, pin, m) == Some(end)
    ensures end in graph
    decreases m
  {
    if m < n {
      WalkAdd(graph, pin, m, n - m);
    } else {
      WalkAdd(graph, pin, n, m - n);
      CycleNeverEnds(graph, pin, n, m - n, end);
    }
  }

  lemma FlatMeansAcyclic(aliases: AliasMap, graph: AliasMap)
    requires Flattens(aliases, graph)
    ensures !HasCycle(graph)
  {
    if HasCycle(graph) {
      var pin :| OnCycle(graph, pin);
      var n: nat :| n > 0 && Walk(graph, pin, n) == Some(pin);
      var m: nat :| Walk(graph, pin, m) == Some(aliases[pin]);
      CycleNeverEnds(graph, pin, n, m, aliases[pin]);
    }
  }

  // ----- flattening one more alias -----

  lemma PhysicalEnds(aliases: AliasMap, graph: AliasMap, target: Pin)
    requires Flattens(aliases, graph)
    ensures EndsIn(graph, target, Physical(aliases, target))
  {
    if target !in aliases {
      assert Walk(graph, target, 0) == Some(target);
    }
  }

  lemma FlattenStep(aliases: AliasMap, graph: AliasMap, alias: Pin, target: Pin)
    requires Flattens(aliases, graph) && alias !in graph
    requires Physical(aliases, target) != alias
    ensures Flattens(Redirect(aliases, alias, Physical(aliases, target)), graph[alias := target])
  {
    var physical := Physical(aliases, target);
    var grown := graph[alias := target];
    var flat := Redirect(aliases, alias, physical);
    PhysicalEnds(aliases, graph, target);
    var t: nat :| Walk(graph, target, t) == Some(physical);
    WalkGrows(graph, grown, target, t);
    assert Walk(grown, alias, t + 1) == Some(physical);
    forall pin | pin in flat ensures EndsIn(grown, pin, flat[pin]) {
      if pin != alias {
        var n: nat :| Walk(graph, pin, n) == Some(aliases[pin]);
        WalkGrows(graph, grown, pin, n);
        if aliases[pin] == alias {
          WalkAdd(grown, pin, n, t + 1);
        }
      }
    }
  }

  /** When the target already leads back to the new alias, the declarations close a cycle. */
  lemma CycleStep(aliases: AliasMap, graph: AliasMap, alias: Pin, target: Pin)
    requires Flattens(aliases, graph) && alias !in graph
    requires Physical(aliases, target) == alias
    ensures HasCycle(graph[alias := target])
  {
    var grown := graph[alias := target];
    PhysicalEnds(aliases, graph, target);
    var t: nat :| Walk(graph, target, t) == Some(alias);
    WalkGrows(graph, grown, target, t);
    assert Walk(grown, alias, t + 1) == Some(alias);
    assert OnCycle(grown, alias);
  }

  // ----- all declarations -----

  lemma {:induction false} DeclaredKeys(ds: seq<Declaration>, alias: Pin)
    requires alias in Declared(ds)
    ensures exists i :: 0 <= i < |ds| && ds[i].alias == alias && !IsReservation(ds[i].target)
  {
    var last := |ds| - 1;
    if IsReservation(ds[last].target) || ds[last].alias != alias {
      DeclaredKeys(ds[..last], alias);
      var i :| 0 <= i < last && ds[..last][i].alias == alias && !IsReservation(ds[..last][i].target);
      assert ds[i].alias == alias;
    }
  }

  /** In a well-declared list the last ordinary declaration is of a new alias. */
  lemma LastIsNew(ds: seq<Declaration>)
    requires ds != [] && WellDeclared(ds) && !IsReservation(ds[|ds| - 1].target)
    ensures ds[|ds| - 1].alias !in Declared(ds[..|ds| - 1])
  {
    var init := ds[..|ds| - 1];
    if ds[|ds| - 1].alias in Declared(init) {
      DeclaredKeys(init, ds[|ds| - 1].alias);
    }
  }

  lemma CycleGrows(graph: AliasMap, alias: Pin, target: Pin)
    requires HasCycle(graph) && alias !in graph
    ensures HasCycle(graph[alias := target])
  {
    var pin :| OnCycle(graph, pin);
    var n: nat :| n > 0 && Walk(graph, pin, n) == Some(pin);
    WalkGrows(graph, graph[alias := target], pin, n);
    assert OnCycle(graph[alias := target], pin);
  }

  /** What is on record about header positions is what was declared about them. */
  ghost predicate ReservationsOf(reserved: AliasMap, ds: seq<Declaration>) {
    forall pin, target :: (pin in reserved && reserved[pin] == target) <==> ReservedBy(ds, pin, target)
  }

  ghost predicate ReservedBy(ds: seq<Declaration>, pin: Pin, target: Pin) {
    IsReservation(target) && Declaration(pin, target) in ds
  }

  /**
    The theorem: the declarations are accepted if and only if no cycle is declared, the one error
    they can meet is the cycle, and the accepted table flattens the declared graph.
   */
  lemma {:induction false} FlatteningFollowsChains(ds: seq<Declaration>)
    requires WellDeclared(ds)
    ensures AddAllSpec(EMPTY, ds).Success? <==> !HasCycle(Declared(ds))
    ensures AddAllSpec(EMPTY, ds).Failure? ==> AddAllSpec(EMPTY, ds).error == CyclicAlias
    ensures AddAllSpec(EMPTY, ds).Success? ==>
      && Flattens(AddAllSpec(EMPTY, ds).value.aliases, Declared(ds))
      && ReservationsOf(AddAllSpec(EMPTY, ds).value.reserved, ds)
  {
    if ds == [] {
      FlatMeansAcyclic(map[], map[]);
    } else {
      var init, d := ds[..|ds| - 1], ds[|ds| - 1];
      assert ds == init + [d];
      assert WellDeclared(init);
      FlatteningFollowsChains(init);
      if IsReservation(d.target) {
        ReservationStep(ds);
      } else {
        LastIsNew(ds);
        assert forall pin, target :: ReservedBy(ds, pin, target) <==> ReservedBy(init, pin, target);
        if HasCycle(Declared(init)) {
          CycleGrows(Declared(init), d.alias, d.target);
        } else {
          var before := AddAllSpec(EMPTY, init).value;
          if Physical(before.aliases, d.target) == d.alias {
            CycleStep(before.aliases, Declared(init), d.alias, d.target);
          } else {
            FlattenStep(before.aliases, Declared(init), d.alias, d.target);
            FlatMeansAcyclic(Redirect(before.aliases, d.alias, Physical(before.aliases, d.target)), Declared(ds));
          }
        }
      }
    }
  }

  lemma ReservationStep(ds: seq<Declaration>)
    requires ds != [] && WellDeclared(ds) && IsReservation(ds[|ds| - 1].target)
    requires var before := AddAllSpec(EMPTY, ds[..|ds| - 1]);
      before.Success? ==> ReservationsOf(before.value.reserved, ds[..|ds| - 1])
    ensures var before, after := AddAllSpec(EMPTY, ds[..|ds| - 1]), AddAllSpec(EMPTY, ds);
      && (before.Failure? ==> after.Failure? && after.error == before.error)
      && (before.Success? ==>
            after.Success? && after.value.aliases == before.value.aliases && ReservationsOf(after.value.reserved, ds))
  {
    hide ReservationsOf, WellDeclared;
    var init, d := ds[..|ds| - 1], ds[|ds| - 1];
    assert ds == init + [d];
    var before := AddAllSpec(EMPTY, init);
    if before.Success? {
      ReservationIsConsistent(before.value.reserved, ds);
      ReservationsGrow(before.value.reserved, init, d);
    }
  }

  /** One that is declared again is declared the same. */
  lemma ReservationIsConsistent(reserved: AliasMap, ds: seq<Declaration>)
    requires ds != [] && WellDeclared(ds) && IsReservation(ds[|ds| - 1].target)
    requires ReservationsOf(reserved, ds[..|ds| - 1])
    ensures ds[|ds| - 1].alias in reserved ==> reserved[ds[|ds| - 1].alias] == ds[|ds| - 1].target
  {
    var init, d := ds[..|ds| - 1], ds[|ds| - 1];
    if d.alias in reserved {
      assert ReservedBy(init, d.alias, reserved[d.alias]);
      var i :| 0 <= i < |init| && init[i] == Declaration(d.alias, reserved[d.alias]);
      assert ds[i].alias == ds[|ds| - 1].alias;
    }
  }

  lemma ReservationsGrow(reserved: AliasMap, init: seq<Declaration>, d: Declaration)
    requires ReservationsOf(reserved, init) && IsReservation(d.target)
    requires d.alias in reserved ==> reserved[d.alias] == d.target
    ensures ReservationsOf(reserved[d.alias := d.target], init + [d])
  {
    var more := reserved[d.alias := d.target];
    forall pin, target ensures (pin in more && more[pin] == target) <==> ReservedBy(init + [d], pin, target) {
      assert ReservedBy(init + [d], pin, target) <==>
        ReservedBy(init, pin, target) || (IsReservation(target) && Declaration(pin, target) == d);
    }
  }

  /** No alias is left pointing to another: one lookup is the whole resolution. */
  lemma OneStepResolution(ds: seq<Declaration>, pin: Pin)
    requires WellDeclared(ds) && AddAllSpec(EMPTY, ds).Success?
    requires pin in AddAllSpec(EMPTY, ds).value.aliases
    ensures AddAllSpec(EMPTY, ds).value.aliases[pin] !in AddAllSpec(EMPTY, ds).value.aliases
  {
    FlatteningFollowsChains(ds);
  }

  /** Two lists that declare the same graph resolve alike, in whatever order they declare it. */
  lemma OrderDoesNotMatter(ds: seq<Declaration>, es: seq<Declaration>)
    requires WellDeclared(ds) && WellDeclared(es) && Declared(ds) == Declared(es)
    ensures AddAllSpec(EMPTY, ds).Success? <==> AddAllSpec(EMPTY, es).Success?
    ensures AddAllSpec(EMPTY, ds).Success? ==>
      AddAllSpec(EMPTY, ds).value.aliases == AddAllSpec(EMPTY, es).value.aliases
  {
    FlatteningFollowsChains(ds);
    FlatteningFollowsChains(es);
    if AddAllSpec(EMPTY, ds).Success? {
      var a, b := AddAllSpec(EMPTY, ds).value.aliases, AddAllSpec(EMPTY, es).value.aliases;
      forall pin | pin in a ensures a[pin] == b[pin] {
        ChainEndUnique(Declared(ds), pin, a[pin], b[pin]);
      }
    }
  }

  /**
    Declaring the very same alias again is accepted only while its target is still where it ends:
    the order of the other declarations decides, so "each alias once" cannot be dropped above.
   */
  lemma RepetitionDependsOnOrder()
    ensures AddAllSpec(EMPTY, [Declaration("a", "b"), Declaration("a", "b"), Declaration("b", "c")]).Success?
    ensures AddAllSpec(EMPTY, [Declaration("a", "b"), Declaration("b", "c"), Declaration("a", "b")]) == Failure(ConflictingAlias)
  {
    var ab, bc := Declaration("a", "b"), Declaration("b", "c");
    assert !IsReservation("b") && !IsReservation("c") && ValidTarget("b") && ValidTarget("c") by {
      assert "b"[0] == 'b' && "c"[0] == 'c';
    }
    assert [ab][..0] == [] && [ab, ab][..1] == [ab] && [ab, ab, bc][..2] == [ab, ab];
    assert [ab, bc][..1] == [ab] && [ab, bc, ab][..2] == [ab, bc];
    assert AddAllSpec(EMPTY, []) == Success(EMPTY);
    var one := Table(Redirect(map[], "a", "b"), map[]);
    assert AddAllSpec(EMPTY, [ab]) == Success(one) && one.aliases == map["a" := "b"];
    assert AddAllSpec(EMPTY, [ab, ab]) == AddSpec(one, ab);
    assert AddAllSpec(EMPTY, [ab, bc]) == AddSpec(one, bc);
    assert AddSpec(one, bc).value.aliases["a"] == "c";
  }

  /** When exactly a repeated ordinary declaration passes, on any table whose targets are no aliases. */
  lemma RepetitionAccepted(table: Table, d: Declaration)
    requires forall pin :: pin in table.aliases ==> table.aliases[pin] !in table.aliases
    requires d.alias in table.aliases && !IsReservation(d.target) && ValidTarget(d.target)
    ensures AddSpec(table, d).Success? <==> table.aliases[d.alias] == d.target
    ensures AddSpec(table, d).Success? ==> AddSpec(table, d).value == table
  {
    if table.aliases[d.alias] == d.target {
      assert Redirect(table.aliases, d.alias, d.target) == table.aliases;
    }
  }

  // ----- the resolver object -----

  datatype Token = Token(mcu: Mcu, name: Pin)

  class Resolver {
    var tables: map<Mcu, Table>
    const scaledMcus: map<Mcu, Mcu>

    constructor (scaledMcus: map<Mcu, Mcu>)
      ensures tables == map[] && this.scaledMcus == scaledMcus
    {
      tables := map[];
      this.scaledMcus := scaledMcus;
    }

    function TableOf(mcu: Mcu): Table
      reads this
    {
      if mcu in tables then tables[mcu] else EMPTY
    }

    /** The new alias first, then every alias that ended in its name. */
    static method RedirectAll<K(==)>(given: map<K, K>, alias: K, physical: K) returns (aliases: map<K, K>)
      ensures aliases == Redirect(given, alias, physical)
    {
      hide Redirected, Redirect;
      aliases := given[alias := physical];
      ghost var first := aliases;
      var todo := aliases.Keys;
      RedirectEnds(given, alias, physical);
      while todo != {}
        invariant todo <= first.Keys == aliases.Keys && aliases == Redirected(first, todo, alias, physical)
        decreases |todo|
      {
        var name :| name in todo;
        RedirectOne(first, todo, alias, physical, name);
        if aliases[name] == alias {
          aliases := aliases[name := physical];
        }
        todo := todo - {name};
      }
    }

    /** Adds one declaration for one MCU, rewriting the aliases that ended in the new name. */
    method Add(mcu: Mcu, d: Declaration) returns (error: Option<AliasError>)
      modifies this
      ensures forall other :: other != mcu ==> TableOf(other) == old(TableOf(other))
      ensures match AddSpec(old(TableOf(mcu)), d)
        case Success(table) => error == None && TableOf(mcu) == table
        case Failure(e) => error == Some(e) && TableOf(mcu) == old(TableOf(mcu))
    {
      if mcu !in tables {
        tables := tables[mcu := EMPTY];
      }
      var table := tables[mcu];
      if IsReservation(d.target) {
        if d.alias in table.reserved && table.reserved[d.alias] != d.target {
          return Some(ConflictingReservation);
        }
        tables := tables[mcu := table.(reserved := table.reserved[d.alias := d.target])];
        return None;
      }
      if !ValidTarget(d.target) {
        return Some(InvalidTarget);
      }
      if d.alias in table.aliases && table.aliases[d.alias] != d.target {
        return Some(ConflictingAlias);
      }
      var physical := if d.target in table.aliases then table.aliases[d.target] else d.target;
      if physical == d.alias {
        return Some(CyclicAlias);
      }
      var aliases := RedirectAll(table.aliases, d.alias, physical);
      tables := tables[mcu := table.(aliases := aliases)];
      error := None;
    }

    /** Reads a list of declarations of one MCU, stopping at the first error. */
    method AddAll(mcu: Mcu, ds: seq<Declaration>) returns (error: Option<AliasError>)
      modifies this
      ensures forall other :: other != mcu ==> TableOf(other) == old(TableOf(other))
      ensures match AddAllSpec(old(TableOf(mcu)), ds)
        case Success(table) => error == None && TableOf(mcu) == table
        case Failure(e) => error == Some(e)
    {
      error := None;
      assert ds[..0] == [];
      for i := 0 to |ds|
        invariant error == None
        invariant forall other :: other != mcu ==> TableOf(other) == old(TableOf(other))
        invariant AddAllSpec(old(TableOf(mcu)), ds[..i]) == Success(TableOf(mcu))
      {
        assert ds[..i + 1][..i] == ds[..i] && ds[..i + 1][i] == ds[i];
        error := Add(mcu, ds[i]);
        if error.Some? {
          AddAllFails(old(TableOf(mcu)), ds, i + 1, error.value);
          return;
        }
      }
      assert ds[..|ds|] == ds;
    }

    /** The physical pin behind a token; a scaled provider stands for its reference MCU. */
    function Resolve(token: Token): (r: Result<(Mcu, Pin), AliasError>)
      reads this
    {
      var mcu := if token.mcu in scaledMcus then scaledMcus[token.mcu] else token.mcu;
      var table := TableOf(mcu);
      var physical := Physical(table.aliases, token.name);
      if physical in table.reserved then Failure(ReservedPin) else Success((mcu, physical))
    }
  }

  lemma {:induction false} AddAllFails(table: Table, ds: seq<Declaration>, n: nat, e: AliasError)
    requires n <= |ds| && AddAllSpec(table, ds[..n]) == Failure(e)
    ensures AddAllSpec(table, ds) == Failure(e)
    decreases |ds|
  {
    if n == |ds| {
      assert ds[..n] == ds;
    } else {
      assert ds[..|ds| - 1][..n] == ds[..n];
      AddAllFails(table, ds[..|ds| - 1], n, e);
    }
  }

  /** Resolution is the declared chain: two tokens name one pin exactly when their chains meet. */
  lemma ResolutionIsChainEnd(ds: seq<Declaration>, name: Pin, end: Pin)
    requires WellDeclared(ds) && AddAllSpec(EMPTY, ds).Success?
    ensures Physical(AddAllSpec(EMPTY, ds).value.aliases, name) == end <==> EndsIn(Declared(ds), name, end)
  {
    FlatteningFollowsChains(ds);
    var aliases := AddAllSpec(EMPTY, ds).value.aliases;
    PhysicalEnds(aliases, Declared(ds), name);
    if EndsIn(Declared(ds), name, end) {
      ChainEndUnique(Declared(ds), name, end, Physical(aliases, name));
    }
  }

  /**
    Looking up a token whose MCU was declared so: it stands for the end of its declared chain, and is
    refused exactly when that end is declared to be no pin.
   */
  lemma ResolvesToChainEnd(r: Resolver, token: Token, ds: seq<Declaration>, end: Pin)
    requires WellDeclared(ds)
    requires var mcu := if token.mcu in r.scaledMcus then r.scaledMcus[token.mcu] else token.mcu;
      AddAllSpec(EMPTY, ds) == Success(r.TableOf(mcu))
    requires EndsIn(Declared(ds), token.name, end)
    ensures var mcu := if token.mcu in r.scaledMcus then r.scaledMcus[token.mcu] else token.mcu;
      && (r.Resolve(token) == Success((mcu, end)) <==> forall i :: 0 <= i < |ds| && ds[i].alias == end ==> !IsReservation(ds[i].target))
      && (r.Resolve(token) == Failure(ReservedPin) <==> exists i :: 0 <= i < |ds| && ds[i].alias == end && IsReservation(ds[i].target))
  {
    FlatteningFollowsChains(ds);
    ResolutionIsChainEnd(ds, token.name, end);
    var reserved := AddAllSpec(EMPTY, ds).value.reserved;
    if end in reserved {
      assert ReservedBy(ds, end, reserved[end]);
    }
    if i :| 0 <= i < |ds| && ds[i].alias == end && IsReservation(ds[i].target) {
      assert ReservedBy(ds, end, ds[i].target);
    }
  }
}

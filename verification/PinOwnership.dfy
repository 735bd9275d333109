/**
  Exclusive use of physical pins: static outputs, physical probes and scaled ADC circuits.

  A configuration is given as its pin uses in order, each with its section, its field, the pin it names
  and how it is written; `exempt` marks the sections that no check scans.
 */
module PinOwnership {
  import opened Prelude
  import opened PinAliases

  type Identity = (Mcu, Pin)

  /** The MCU of a pin that is written without one. */
  const MAIN: Mcu := "mcu"

  /** Whitespace at the colon between an MCU and its pin. */
  datatype Gap = NoGap | Before | After | Around

  datatype Use = Use(section: string, field: string, exempt: bool, token: Token, gap: Gap) {

    /** The pieces that whitespace and commas split it into. */
    function Pieces(): seq<Token> {
      match gap
      case NoGap => [token]
      case Before => [Token(MAIN, token.mcu), Token("", token.name)]
      case After => [Token(token.mcu, ""), Token(MAIN, token.name)]
      case Around => [Token(MAIN, token.mcu), Token("", ""), Token(MAIN, token.name)]
    }

    /** What a check reads: the pin itself, once whitespace at a colon is dropped, or the pieces. */
    function Read(normalized: bool): seq<Token> {
      if normalized then [token] else Pieces()
    }

    /** None of the pieces is the pin itself. */
    predicate Misread() {
      gap == Before || (gap in {After, Around} && token.mcu != MAIN)
    }
  }

  /** The token stands for a pin, and which one. */
  predicate Is(aliases: Resolver, token: Token, pin: Identity)
    reads aliases
  {
    aliases.Resolve(token) == Success(pin)
  }

  predicate Free(aliases: Resolver, reserved: set<Identity>, token: Token)
    reads aliases
  {
    aliases.Resolve(token).Success? && aliases.Resolve(token).value !in reserved
  }

  predicate Apart(aliases: Resolver, a: Token, b: Token)
    reads aliases
  {
    aliases.Resolve(a).Success? && aliases.Resolve(b).Success? && aliases.Resolve(a).value != aliases.Resolve(b).value
  }

  /** Every protected pin is free of firmware, and shared with no other protected or scanned use. */
  ghost predicate ExclusivelyOwned(aliases: Resolver, reserved: set<Identity>, owned: seq<Token>, scanned: seq<Token>)
    reads aliases
  {
    && (forall i :: 0 <= i < |owned| ==> Free(aliases, reserved, owned[i]))
    && (forall i, j :: 0 <= i < j < |owned| ==> Apart(aliases, owned[i], owned[j]))
    && (forall k :: 0 <= k < |scanned| ==> aliases.Resolve(scanned[k]).Success?)
    && (forall i, k :: 0 <= i < |owned| && 0 <= k < |scanned| ==> Apart(aliases, owned[i], scanned[k]))
  }

  function Tokens(uses: seq<Use>): (r: seq<Token>)
    ensures |r| == |uses| && forall i :: 0 <= i < |uses| ==> r[i] == uses[i].token
  {
    seq(|uses|, i requires 0 <= i < |uses| => uses[i].token)
  }

  function Sections(uses: seq<Use>): set<string> {
    set use | use in uses :: use.section
  }

  /** What a check scans: the uses of no section it protects and of no exempt one. */
  function Scanned(config: seq<Use>, skipped: set<string>, normalized: bool): seq<Token> {
    if config == [] then []
    else
      var before := Scanned(config[..|config| - 1], skipped, normalized);
      var use := config[|config| - 1];
      if use.section in skipped || use.exempt then before else before + use.Read(normalized)
  }

  ghost predicate TakenBy(aliases: Resolver, owned: seq<Token>, pin: Identity)
    reads aliases
  {
    exists i :: 0 <= i < |owned| && Is(aliases, owned[i], pin)
  }

  /** `taken` is exactly what the tokens resolve to. */
  ghost predicate Allocates(aliases: Resolver, taken: set<Identity>, owned: seq<Token>)
    reads aliases
  {
    && (forall i :: 0 <= i < |owned| ==> aliases.Resolve(owned[i]).Success? && aliases.Resolve(owned[i]).value in taken)
    && (forall pin :: pin in taken ==> TakenBy(aliases, owned, pin))
  }

  lemma AllocatesStep(aliases: Resolver, taken: set<Identity>, owned: seq<Token>, token: Token, pin: Identity)
    requires Allocates(aliases, taken, owned) && Is(aliases, token, pin)
    ensures Allocates(aliases, taken + {pin}, owned + [token])
  {
    var more := owned + [token];
    assert Is(aliases, more[|owned|], pin);
    forall p | p in taken ensures TakenBy(aliases, more, p) {
      var i :| 0 <= i < |owned| && Is(aliases, owned[i], p);
      assert more[i] == owned[i];
    }
  }

  lemma OwnedStep(aliases: Resolver, reserved: set<Identity>, taken: set<Identity>, owned: seq<Token>, token: Token)
    requires Allocates(aliases, taken, owned) && ExclusivelyOwned(aliases, reserved, owned, [])
    ensures ExclusivelyOwned(aliases, reserved, owned + [token], []) <==>
      Free(aliases, reserved, token) && aliases.Resolve(token).value !in taken
  {
    var more := owned + [token];
    assert more[|owned|] == token;
    assert forall i :: 0 <= i < |owned| ==> more[i] == owned[i];
    if aliases.Resolve(token).Success? && aliases.Resolve(token).value in taken {
      var i :| 0 <= i < |owned| && Is(aliases, owned[i], aliases.Resolve(token).value);
      assert !Apart(aliases, more[i], more[|owned|]);
    }
  }

  lemma OwnedPrefix(aliases: Resolver, reserved: set<Identity>, owned: seq<Token>, n: nat)
    requires n <= |owned| && ExclusivelyOwned(aliases, reserved, owned, [])
    ensures ExclusivelyOwned(aliases, reserved, owned[..n], [])
  {
  }

  /** Claims the tokens in order; refuses a reserved pin and one that is already claimed. */
  method ClaimAll(aliases: Resolver, reserved: set<Identity>, owned: seq<Token>)
    returns (ok: bool, taken: set<Identity>)
    ensures ok <==> ExclusivelyOwned(aliases, reserved, owned, [])
    ensures ok ==> Allocates(aliases, taken, owned)
  {
    hide ExclusivelyOwned, Allocates;
    taken := {};
    NothingOwned(aliases, reserved);
    assert owned[..0] == [];
    for i := 0 to |owned|
      invariant Allocates(aliases, taken, owned[..i])
      invariant ExclusivelyOwned(aliases, reserved, owned[..i], [])
    {
      assert owned[..i + 1] == owned[..i] + [owned[i]];
      OwnedStep(aliases, reserved, taken, owned[..i], owned[i]);
      var pin := aliases.Resolve(owned[i]);
      if pin.Failure? || pin.value in taken || pin.value in reserved {
        if ExclusivelyOwned(aliases, reserved, owned, []) {
          OwnedPrefix(aliases, reserved, owned, i + 1);
        }
        return false, {};
      }
      AllocatesStep(aliases, taken, owned[..i], owned[i], pin.value);
      taken := taken + {pin.value};
    }
    assert owned[..|owned|] == owned;
    ok := true;
  }

  lemma NothingOwned(aliases: Resolver, reserved: set<Identity>)
    ensures ExclusivelyOwned(aliases, reserved, [], []) && Allocates(aliases, {}, [])
  {
  }

  /** The token resolves, to a pin that none of the owned ones stands for. */
  ghost predicate Clear(aliases: Resolver, owned: seq<Token>, token: Token)
    reads aliases
  {
    aliases.Resolve(token).Success? && forall i :: 0 <= i < |owned| ==> Apart(aliases, owned[i], token)
  }

  ghost predicate AllClear(aliases: Resolver, owned: seq<Token>, tokens: seq<Token>)
    reads aliases
  {
    forall k :: 0 <= k < |tokens| ==> Clear(aliases, owned, tokens[k])
  }

  lemma ClearMeans(aliases: Resolver, taken: set<Identity>, owned: seq<Token>, token: Token)
    requires Allocates(aliases, taken, owned)
    ensures Clear(aliases, owned, token) <==> aliases.Resolve(token).Success? && aliases.Resolve(token).value !in taken
  {
    var pin := aliases.Resolve(token);
    if pin.Success? && pin.value in taken {
      var i :| 0 <= i < |owned| && Is(aliases, owned[i], pin.value);
      assert !Apart(aliases, owned[i], token);
    }
  }

  lemma AllClearAppend(aliases: Resolver, owned: seq<Token>, tokens: seq<Token>, more: seq<Token>)
    ensures AllClear(aliases, owned, tokens + more) <==> AllClear(aliases, owned, tokens) && AllClear(aliases, owned, more)
  {
    hide Clear;
    var all := tokens + more;
    assert forall k :: 0 <= k < |tokens| ==> all[k] == tokens[k];
    assert forall k :: 0 <= k < |more| ==> all[|tokens| + k] == more[k];
    assert forall k :: |tokens| <= k < |all| ==> all[k] == more[k - |tokens|];
  }

  lemma AllClearPrefix(aliases: Resolver, owned: seq<Token>, tokens: seq<Token>, more: seq<Token>)
    requires tokens <= more && AllClear(aliases, owned, more)
    ensures AllClear(aliases, owned, tokens)
  {
    hide Clear;
    assert forall k :: 0 <= k < |tokens| ==> tokens[k] == more[k];
  }

  lemma ScannedStep(config: seq<Use>, n: nat, skipped: set<string>, normalized: bool)
    requires n < |config|
    ensures Scanned(config[..n + 1], skipped, normalized) ==
      Scanned(config[..n], skipped, normalized)
      + if config[n].section in skipped || config[n].exempt then [] else config[n].Read(normalized)
  {
    assert config[..n + 1][..n] == config[..n];
  }

  /** Every token resolves, to a pin that is not taken. */
  method CheckTokens(aliases: Resolver, taken: set<Identity>, ghost owned: seq<Token>, tokens: seq<Token>)
    returns (ok: bool)
    requires Allocates(aliases, taken, owned)
    ensures ok <==> AllClear(aliases, owned, tokens)
  {
    hide Clear, Allocates;
    for k := 0 to |tokens|
      invariant forall i :: 0 <= i < k ==> Clear(aliases, owned, tokens[i])
    {
      ClearMeans(aliases, taken, owned, tokens[k]);
      var pin := aliases.Resolve(tokens[k]);
      if pin.Failure? || pin.value in taken {
        return false;
      }
    }
    ok := true;
  }

  /** Nothing scanned may stand for a taken pin; what cannot be resolved is refused too. */
  method ScanOthers(aliases: Resolver, taken: set<Identity>, ghost owned: seq<Token>, config: seq<Use>,
                    skipped: set<string>, normalized: bool)
    returns (ok: bool)
    requires Allocates(aliases, taken, owned)
    ensures ok <==> AllClear(aliases, owned, Scanned(config, skipped, normalized))
  {
    hide Clear, AllClear, Allocates, Scanned;
    assert AllClear(aliases, owned, Scanned(config[..0], skipped, normalized)) by {
      NothingScanned(aliases, owned, config, skipped, normalized);
    }
    for n := 0 to |config|
      invariant AllClear(aliases, owned, Scanned(config[..n], skipped, normalized))
    {
      ScannedStep(config, n, skipped, normalized);
      var use := config[n];
      if use.section in skipped || use.exempt {
        assert Scanned(config[..n], skipped, normalized) + [] == Scanned(config[..n], skipped, normalized);
        continue;
      }
      AllClearAppend(aliases, owned, Scanned(config[..n], skipped, normalized), use.Read(normalized));
      ok := CheckTokens(aliases, taken, owned, use.Read(normalized));
      if !ok {
        ScannedPrefix(config, n + 1, skipped, normalized);
        if AllClear(aliases, owned, Scanned(config, skipped, normalized)) {
          AllClearPrefix(aliases, owned, Scanned(config[..n + 1], skipped, normalized),
                         Scanned(config, skipped, normalized));
        }
        return;
      }
    }
    assert config[..|config|] == config;
    ok := true;
  }

  lemma NothingScanned(aliases: Resolver, owned: seq<Token>, config: seq<Use>, skipped: set<string>, normalized: bool)
    ensures AllClear(aliases, owned, Scanned(config[..0], skipped, normalized))
  {
    assert config[..0] == [];
  }

  /** Owned alone, and with nothing else scanned in their way, is owned exclusively. */
  lemma OwnedAndClear(aliases: Resolver, reserved: set<Identity>, owned: seq<Token>, others: seq<Token>)
    ensures ExclusivelyOwned(aliases, reserved, owned, others) <==>
      ExclusivelyOwned(aliases, reserved, owned, []) && AllClear(aliases, owned, others)
  {
  }

  lemma {:induction false} ScannedPrefix(config: seq<Use>, n: nat, skipped: set<string>, normalized: bool)
    requires n <= |config|
    ensures Scanned(config[..n], skipped, normalized) <= Scanned(config, skipped, normalized)
    decreases |config| - n
  {
    if n < |config| {
      assert config[..n + 1][..n] == config[..n];
      ScannedPrefix(config, n + 1, skipped, normalized);
    } else {
      assert config[..n] == config;
    }
  }

  // ----- the three checks -----

  /** Static outputs: declared MCUs only, and every pin for itself. */
  method ValidateExclusiveOutputs(aliases: Resolver, mcus: set<Mcu>, outputs: seq<Use>, config: seq<Use>,
                                  reserved: set<Identity>)
    returns (accepted: bool)
    ensures accepted <==> (outputs == []
      || ((forall i :: 0 <= i < |outputs| ==> outputs[i].token.mcu in mcus)
          && ExclusivelyOwned(aliases, reserved, Tokens(outputs), Scanned(config, Sections(outputs), true))))
  {
    hide ExclusivelyOwned, AllClear, Allocates, Scanned;
    OwnedAndClear(aliases, reserved, Tokens(outputs), Scanned(config, Sections(outputs), true));
    if outputs == [] {
      return true;
    }
    for i := 0 to |outputs|
      invariant forall j :: 0 <= j < i ==> outputs[j].token.mcu in mcus
    {
      if outputs[i].token.mcu !in mcus {
        return false;
      }
    }
    var ok, taken := ClaimAll(aliases, reserved, Tokens(outputs));
    if !ok {
      return false;
    }
    accepted := ScanOthers(aliases, taken, Tokens(outputs), config, Sections(outputs), true);
  }

  /** What the probe check accepts: its pins against the pieces of every use of another section. */
  ghost predicate ProbeAccepts(aliases: Resolver, section: string, pins: seq<Token>, config: seq<Use>, reserved: set<Identity>)
    reads aliases
  {
    ExclusivelyOwned(aliases, reserved, pins, Scanned(config, {section}, false))
  }

  /** The pins of the probe are used by no other section, whichever way a use is written. */
  ghost predicate ProbeExclusive(aliases: Resolver, section: string, pins: seq<Token>, config: seq<Use>, reserved: set<Identity>)
    reads aliases
  {
    ExclusivelyOwned(aliases, reserved, pins, Scanned(config, {section}, true))
  }

  /** A physical probe: the pins of its section against every other section. */
  method ValidateProbePins(aliases: Resolver, section: string, pins: seq<Token>, config: seq<Use>,
                           reserved: set<Identity>)
    returns (accepted: bool)
    ensures accepted <==> ProbeAccepts(aliases, section, pins, config, reserved)
  {
    hide ExclusivelyOwned, AllClear, Allocates, Scanned;
    OwnedAndClear(aliases, reserved, pins, Scanned(config, {section}, false));
    var ok, taken := ClaimAll(aliases, reserved, pins);
    if !ok {
      return false;
    }
    accepted := ScanOthers(aliases, taken, pins, config, {section}, false);
  }

  predicate IsScanned(use: Use, section: string) {
    use.section != section && !use.exempt
  }

  lemma {:induction false} ScannedClear(aliases: Resolver, owned: seq<Token>, config: seq<Use>, section: string,
                                        normalized: bool)
    ensures AllClear(aliases, owned, Scanned(config, {section}, normalized)) <==>
      forall k :: 0 <= k < |config| && IsScanned(config[k], section) ==> AllClear(aliases, owned, config[k].Read(normalized))
    decreases |config|
  {
    hide AllClear;
    if config == [] {
      assert AllClear(aliases, owned, []) by { NothingScanned(aliases, owned, [], {section}, normalized); }
    } else {
      var init, use := config[..|config| - 1], config[|config| - 1];
      ScannedClear(aliases, owned, init, section, normalized);
      AllClearAppend(aliases, owned, Scanned(init, {section}, normalized), use.Read(normalized));
      assert forall k :: 0 <= k < |init| ==> init[k] == config[k];
    }
  }

  /** A use that is not misread is clear when all its pieces are. */
  lemma PieceIsPin(aliases: Resolver, owned: seq<Token>, use: Use)
    requires AllClear(aliases, owned, use.Pieces()) && !use.Misread()
    ensures Clear(aliases, owned, use.token)
  {
    hide Clear;
    var pieces := use.Pieces();
    assert pieces[|pieces| - 1] == use.token;
  }

  lemma OneToken(aliases: Resolver, owned: seq<Token>, token: Token)
    ensures AllClear(aliases, owned, [token]) <==> Clear(aliases, owned, token)
  {
    hide Clear;
    assert [token][0] == token;
  }

  /**
    Accepted probe pins are owned exclusively if and only if no scanned use that is misread stands for
    one of them or for no usable pin.
   */
  lemma AcceptedProbeIsExclusive(aliases: Resolver, section: string, pins: seq<Token>, config: seq<Use>, reserved: set<Identity>)
    requires ProbeAccepts(aliases, section, pins, config, reserved)
    ensures ProbeExclusive(aliases, section, pins, config, reserved) <==>
      forall k :: 0 <= k < |config| && IsScanned(config[k], section) && config[k].Misread() ==>
        Clear(aliases, pins, config[k].token)
  {
    hide ExclusivelyOwned, AllClear, Clear, Scanned;
    OwnedAndClear(aliases, reserved, pins, Scanned(config, {section}, false));
    OwnedAndClear(aliases, reserved, pins, Scanned(config, {section}, true));
    ScannedClear(aliases, pins, config, section, false);
    ScannedClear(aliases, pins, config, section, true);
    forall k | 0 <= k < |config| && IsScanned(config[k], section)
      ensures AllClear(aliases, pins, config[k].Read(true)) <==> Clear(aliases, pins, config[k].token)
      ensures !config[k].Misread() ==> Clear(aliases, pins, config[k].token)
    {
      OneToken(aliases, pins, config[k].token);
      if !config[k].Misread() {
        PieceIsPin(aliases, pins, config[k]);
      }
    }
  }

  /** Exclusively owned probe pins are accepted if and only if no piece of a use with a gap stands for one, or for no usable pin. */
  lemma ExclusiveProbeIsAccepted(aliases: Resolver, section: string, pins: seq<Token>, config: seq<Use>, reserved: set<Identity>)
    requires ProbeExclusive(aliases, section, pins, config, reserved)
    ensures ProbeAccepts(aliases, section, pins, config, reserved) <==>
      forall k :: 0 <= k < |config| && IsScanned(config[k], section) && config[k].gap != NoGap ==>
        AllClear(aliases, pins, config[k].Pieces())
  {
    hide ExclusivelyOwned, AllClear, Scanned;
    OwnedAndClear(aliases, reserved, pins, Scanned(config, {section}, false));
    OwnedAndClear(aliases, reserved, pins, Scanned(config, {section}, true));
    ScannedClear(aliases, pins, config, section, false);
    ScannedClear(aliases, pins, config, section, true);
    assert forall k :: 0 <= k < |config| && config[k].gap == NoGap ==> config[k].Read(true) == config[k].Read(false);
  }

  /** `pin: tool : PA1` shares the pin of a probe on `tool:PA1`, and keeps one off `mcu:PA1`. */
  lemma WhitespaceHidesAConflict(aliases: Resolver)
    requires aliases.tables == map[] && aliases.scaledMcus == map[]
    ensures var config := [Use("output_pin fan", "pin", false, Token("tool", "PA1"), Around)];
      && ProbeAccepts(aliases, "probe", [Token("tool", "PA1")], config, {})
      && !ProbeExclusive(aliases, "probe", [Token("tool", "PA1")], config, {})
      && !ProbeAccepts(aliases, "probe", [Token(MAIN, "PA1")], config, {})
      && ProbeExclusive(aliases, "probe", [Token(MAIN, "PA1")], config, {})
  {
    hide ExclusivelyOwned, Scanned;
    var use := Use("output_pin fan", "pin", false, Token("tool", "PA1"), Around);
    OneUse(use, "probe", true);
    OneUse(use, "probe", false);
    OnePin(aliases, Token("tool", "PA1"), use.Read(true));
    OnePin(aliases, Token("tool", "PA1"), use.Read(false));
    OnePin(aliases, Token(MAIN, "PA1"), use.Read(true));
    OnePin(aliases, Token(MAIN, "PA1"), use.Read(false));
    assert use.Read(false)[2] == Token(MAIN, "PA1") && use.Read(true)[0] == Token("tool", "PA1");
  }

  lemma OneUse(use: Use, section: string, normalized: bool)
    requires IsScanned(use, section)
    ensures Scanned([use], {section}, normalized) == use.Read(normalized)
  {
    assert [use][..0] == [];
    assert Scanned([], {section}, normalized) + use.Read(normalized) == use.Read(normalized);
  }

  /** Without aliases a pin is owned exclusively when it is not among the others. */
  lemma OnePin(aliases: Resolver, pin: Token, others: seq<Token>)
    requires aliases.tables == map[] && aliases.scaledMcus == map[]
    ensures ExclusivelyOwned(aliases, {}, [pin], others) <==> pin !in others
  {
    assert forall token: Token :: aliases.Resolve(token) == Success((token.mcu, token.name));
    if pin in others {
      var k :| 0 <= k < |others| && others[k] == pin;
      assert !Apart(aliases, [pin][0], others[k]);
    }
  }

  // ----- scaled ADC circuits -----

  /** A scaling circuit: its provider name and the two reference pins of one physical MCU. */
  datatype Provider = Provider(section: string, chip: Mcu, vref: Token, vssa: Token, position: nat)

  datatype Sensor = Sensor(section: string, token: Token, thermal: bool, position: nat)

  type Field = (string, string)

  function ReferenceUses(providers: seq<Provider>): seq<Use> {
    if providers == [] then []
    else
      var p := providers[|providers| - 1];
      ReferenceUses(providers[..|providers| - 1])
      + [Use(p.section, "vref_pin", false, p.vref, NoGap), Use(p.section, "vssa_pin", false, p.vssa, NoGap)]
  }

  function Chips(providers: seq<Provider>): set<Mcu> {
    set p | p in providers :: p.chip
  }

  /** The sensors that read through one of the circuits. */
  function ScaledUses(sensors: seq<Sensor>, chips: set<Mcu>): seq<Use> {
    if sensors == [] then []
    else
      var s := sensors[|sensors| - 1];
      ScaledUses(sensors[..|sensors| - 1], chips)
      + (if s.token.mcu in chips then [Use(s.section, "sensor_pin", false, s.token, NoGap)] else [])
  }

  function ProtectedUses(providers: seq<Provider>, sensors: seq<Sensor>): seq<Use> {
    ReferenceUses(providers) + ScaledUses(sensors, Chips(providers))
  }

  predicate SameMcu(aliases: Resolver, a: Token, b: Token)
    reads aliases
  {
    aliases.Resolve(a).Success? && aliases.Resolve(b).Success? && aliases.Resolve(a).value.0 == aliases.Resolve(b).value.0
  }

  predicate ProviderOk(aliases: Resolver, mcus: set<Mcu>, otherChips: set<Mcu>, p: Provider)
    reads aliases
  {
    && p.chip !in mcus && p.chip !in otherChips
    && p.vref.mcu in mcus && p.vssa.mcu in mcus
    && SameMcu(aliases, p.vref, p.vssa)
  }

  /** A scaled reading is a thermal input, defined after its circuit. */
  predicate SensorOk(providers: seq<Provider>, s: Sensor) {
    s.token.mcu in Chips(providers) ==>
      s.thermal && forall p :: p in providers && p.chip == s.token.mcu ==> p.position < s.position
  }

  ghost predicate OwnField(aliases: Resolver, owned: seq<Use>, i: nat, use: Use)
    reads aliases
  {
    i < |owned| && (owned[i].section, owned[i].field) == (use.section, use.field)
    && aliases.Resolve(use.token).Success? && Is(aliases, owned[i].token, aliases.Resolve(use.token).value)
  }

  /** A scanned use is a protected use itself, or has nothing to do with circuits and their pins. */
  ghost predicate ScanOk(aliases: Resolver, owned: seq<Use>, chips: set<Mcu>, use: Use)
    reads aliases
  {
    use.exempt || (
      && aliases.Resolve(use.token).Success?
      && ((exists i :: 0 <= i < |owned| && OwnField(aliases, owned, i, use))
          || (use.token.mcu !in chips && !TakenBy(aliases, Tokens(owned), aliases.Resolve(use.token).value))))
  }

  ghost predicate AdcAccepts(aliases: Resolver, mcus: set<Mcu>, otherChips: set<Mcu>, providers: seq<Provider>,
                             sensors: seq<Sensor>, config: seq<Use>, reserved: set<Identity>)
    reads aliases
  {
    var owned := ProtectedUses(providers, sensors);
    && ProvidersOk(aliases, mcus, otherChips, providers)
    && (forall i :: 0 <= i < |sensors| ==> SensorOk(providers, sensors[i]))
    && ExclusivelyOwned(aliases, reserved, Tokens(owned), [])
    && (forall k :: 0 <= k < |config| ==> ScanOk(aliases, owned, Chips(providers), config[k]))
  }

  /** Every protected pin is recorded. */
  ghost predicate AllRecorded(aliases: Resolver, owned: seq<Use>, owners: map<Identity, Field>)
    reads aliases
  {
    forall i :: 0 <= i < |owned| ==>
      aliases.Resolve(owned[i].token).Success? && aliases.Resolve(owned[i].token).value in owners
  }

  ghost predicate AllApart(aliases: Resolver, owned: seq<Use>)
    reads aliases
  {
    forall i, j :: 0 <= i < j < |owned| ==> Apart(aliases, owned[i].token, owned[j].token)
  }

  /** What is recorded of a pin is the field of a protected use. */
  ghost predicate RecordsOwned(aliases: Resolver, owned: seq<Use>, owners: map<Identity, Field>)
    reads aliases
  {
    forall pin :: pin in owners ==>
      exists i :: 0 <= i < |owned| && Is(aliases, owned[i].token, pin) && owners[pin] == (owned[i].section, owned[i].field)
  }

  ghost predicate Recorded(aliases: Resolver, owned: seq<Use>, owners: map<Identity, Field>)
    reads aliases
  {
    AllRecorded(aliases, owned, owners) && AllApart(aliases, owned) && RecordsOwned(aliases, owned, owners)
  }

  method RecordOwners(aliases: Resolver, owned: seq<Use>) returns (owners: map<Identity, Field>)
    requires forall i :: 0 <= i < |owned| ==> aliases.Resolve(owned[i].token).Success?
    requires AllApart(aliases, owned)
    ensures Recorded(aliases, owned, owners)
  {
    owners := map[];
    for n := 0 to |owned|
      invariant forall i :: 0 <= i < n ==> aliases.Resolve(owned[i].token).value in owners
      invariant forall pin :: pin in owners ==>
        exists i :: 0 <= i < n && Is(aliases, owned[i].token, pin) && owners[pin] == (owned[i].section, owned[i].field)
    {
      var pin := aliases.Resolve(owned[n].token).value;
      assert Is(aliases, owned[n].token, pin);
      owners := owners[pin := (owned[n].section, owned[n].field)];
    }
  }

  ghost predicate ProvidersOk(aliases: Resolver, mcus: set<Mcu>, otherChips: set<Mcu>, providers: seq<Provider>)
    reads aliases
  {
    && (forall i :: 0 <= i < |providers| ==> ProviderOk(aliases, mcus, otherChips, providers[i]))
    && (forall i, j :: 0 <= i < j < |providers| ==> providers[i].chip != providers[j].chip)
  }

  method ValidateProviders(aliases: Resolver, mcus: set<Mcu>, otherChips: set<Mcu>, providers: seq<Provider>)
    returns (ok: bool)
    ensures ok <==> ProvidersOk(aliases, mcus, otherChips, providers)
  {
    hide ProviderOk;
    var chips: set<Mcu> := {};
    for n := 0 to |providers|
      invariant forall i :: 0 <= i < n ==> ProviderOk(aliases, mcus, otherChips, providers[i])
      invariant forall i, j :: 0 <= i < j < n ==> providers[i].chip != providers[j].chip
      invariant forall i :: 0 <= i < n ==> providers[i].chip in chips
      invariant forall c :: c in chips ==> exists i :: 0 <= i < n && providers[i].chip == c
    {
      var p := providers[n];
      if p.chip in chips || !ProviderOk(aliases, mcus, otherChips, p) {
        return false;
      }
      chips := chips + {p.chip};
    }
    ok := true;
  }

  method ValidateSensors(providers: seq<Provider>, sensors: seq<Sensor>) returns (ok: bool)
    ensures ok <==> forall i :: 0 <= i < |sensors| ==> SensorOk(providers, sensors[i])
  {
    hide SensorOk;
    for n := 0 to |sensors|
      invariant forall i :: 0 <= i < n ==> SensorOk(providers, sensors[i])
    {
      if !SensorOk(providers, sensors[n]) {
        return false;
      }
    }
    ok := true;
  }

  /** The scaled-ADC check accepts exactly the configurations described by `AdcAccepts`. */
  method ValidateAdcScaled(aliases: Resolver, mcus: set<Mcu>, otherChips: set<Mcu>, providers: seq<Provider>,
                           sensors: seq<Sensor>, config: seq<Use>, reserved: set<Identity>)
    returns (accepted: bool)
    ensures accepted <==> AdcAccepts(aliases, mcus, otherChips, providers, sensors, config, reserved)
  {
    hide ProvidersOk, SensorOk, ExclusivelyOwned, Apart, ScanOk, ProtectedUses, Chips, Tokens;
    var ok := ValidateProviders(aliases, mcus, otherChips, providers);
    if !ok {
      return false;
    }
    ok := ValidateSensors(providers, sensors);
    if !ok {
      return false;
    }
    accepted := ValidateUses(aliases, ProtectedUses(providers, sensors), Chips(providers), config, reserved);
  }

  method ValidateUses(aliases: Resolver, owned: seq<Use>, chips: set<Mcu>, config: seq<Use>, reserved: set<Identity>)
    returns (accepted: bool)
    ensures accepted <==>
      ExclusivelyOwned(aliases, reserved, Tokens(owned), [])
      && forall k :: 0 <= k < |config| ==> ScanOk(aliases, owned, chips, config[k])
  {
    hide ExclusivelyOwned, Apart, ScanOk, Is, Tokens, Allocates, Recorded, AllApart;
    var claimed, taken := ClaimAll(aliases, reserved, Tokens(owned));
    if !claimed {
      return false;
    }
    OwnedUses(aliases, reserved, owned);
    var owners := RecordOwners(aliases, owned);
    accepted := ScanAdc(aliases, owned, owners, chips, config);
  }

  lemma OwnedUses(aliases: Resolver, reserved: set<Identity>, owned: seq<Use>)
    requires ExclusivelyOwned(aliases, reserved, Tokens(owned), [])
    ensures forall i :: 0 <= i < |owned| ==> aliases.Resolve(owned[i].token).Success?
    ensures AllApart(aliases, owned)
  {
    forall i | 0 <= i < |owned| ensures aliases.Resolve(owned[i].token).Success? {
      assert Free(aliases, reserved, Tokens(owned)[i]);
    }
    forall i, j | 0 <= i < j < |owned| ensures Apart(aliases, owned[i].token, owned[j].token) {
      assert Apart(aliases, Tokens(owned)[i], Tokens(owned)[j]);
    }
  }

  method ScanAdc(aliases: Resolver, ghost owned: seq<Use>, owners: map<Identity, Field>, chips: set<Mcu>,
                 config: seq<Use>)
    returns (ok: bool)
    requires Recorded(aliases, owned, owners)
    ensures ok <==> forall k :: 0 <= k < |config| ==> ScanOk(aliases, owned, chips, config[k])
  {
    hide ScanOk, Recorded;
    for n := 0 to |config|
      invariant forall k :: 0 <= k < n ==> ScanOk(aliases, owned, chips, config[k])
    {
      var one := ScanUse(aliases, owned, owners, chips, config[n]);
      if !one {
        return false;
      }
    }
    ok := true;
  }

  lemma OneOwner(aliases: Resolver, owned: seq<Use>, pin: Identity, i: nat, j: nat)
    requires AllApart(aliases, owned) && i < |owned| && j < |owned|
    requires Is(aliases, owned[i].token, pin) && Is(aliases, owned[j].token, pin)
    ensures i == j
  {
  }

  lemma OwnerOf(aliases: Resolver, owned: seq<Use>, owners: map<Identity, Field>, pin: Identity) returns (i: nat)
    requires RecordsOwned(aliases, owned, owners) && pin in owners
    ensures i < |owned| && Is(aliases, owned[i].token, pin) && owners[pin] == (owned[i].section, owned[i].field)
    ensures TakenBy(aliases, Tokens(owned), pin)
  {
    i :| 0 <= i < |owned| && Is(aliases, owned[i].token, pin) && owners[pin] == (owned[i].section, owned[i].field);
    assert Is(aliases, Tokens(owned)[i], pin);
  }

  /** A pin that is recorded belongs to one protected use, whose field decides. */
  lemma RecordedPin(aliases: Resolver, owned: seq<Use>, owners: map<Identity, Field>, chips: set<Mcu>, use: Use)
    requires Recorded(aliases, owned, owners) && !use.exempt
    requires aliases.Resolve(use.token).Success? && aliases.Resolve(use.token).value in owners
    ensures ScanOk(aliases, owned, chips, use) <==> owners[aliases.Resolve(use.token).value] == (use.section, use.field)
  {
    hide AllRecorded, RecordsOwned, AllApart, Is, Tokens, TakenBy;
    var pin := aliases.Resolve(use.token).value;
    var i := OwnerOf(aliases, owned, owners, pin);
    if owners[pin] == (use.section, use.field) {
      assert OwnField(aliases, owned, i, use);
    } else {
      forall j: nat | j < |owned| ensures !OwnField(aliases, owned, j, use) {
        if OwnField(aliases, owned, j, use) {
          OneOwner(aliases, owned, pin, i, j);
        }
      }
    }
  }

  /** A pin that is not recorded is no protected pin. */
  lemma UnrecordedPin(aliases: Resolver, owned: seq<Use>, owners: map<Identity, Field>, chips: set<Mcu>, use: Use)
    requires Recorded(aliases, owned, owners) && !use.exempt
    requires aliases.Resolve(use.token).Success? && aliases.Resolve(use.token).value !in owners
    ensures ScanOk(aliases, owned, chips, use) <==> use.token.mcu !in chips
  {
    hide AllApart, RecordsOwned;
    var pin := aliases.Resolve(use.token).value;
    forall i | 0 <= i < |owned| ensures !Is(aliases, owned[i].token, pin) {
      assert aliases.Resolve(owned[i].token).value in owners;
    }
  }

  method ScanUse(aliases: Resolver, ghost owned: seq<Use>, owners: map<Identity, Field>, chips: set<Mcu>, use: Use)
    returns (ok: bool)
    requires Recorded(aliases, owned, owners)
    ensures ok <==> ScanOk(aliases, owned, chips, use)
  {
    hide Recorded;
    if use.exempt {
      return true;
    }
    var pin := aliases.Resolve(use.token);
    if pin.Failure? {
      return false;
    }
    if pin.value in owners {
      RecordedPin(aliases, owned, owners, chips, use);
      return owners[pin.value] == (use.section, use.field);
    }
    UnrecordedPin(aliases, owned, owners, chips, use);
    ok := use.token.mcu !in chips;
  }

  /**
    What acceptance means: two protected pins of the circuits are never one, none is reserved, and
    no other use, of whatever section or field, stands for a protected pin or reads a circuit.
   */
  lemma AdcAcceptanceIsExclusive(aliases: Resolver, mcus: set<Mcu>, otherChips: set<Mcu>, providers: seq<Provider>,
                                 sensors: seq<Sensor>, config: seq<Use>, reserved: set<Identity>, i: nat, k: nat)
    requires AdcAccepts(aliases, mcus, otherChips, providers, sensors, config, reserved)
    requires i < |ProtectedUses(providers, sensors)| && k < |config| && !config[k].exempt
    ensures var owned := ProtectedUses(providers, sensors);
      && Free(aliases, reserved, owned[i].token)
      && (forall j :: 0 <= j < |owned| && j != i ==> Apart(aliases, owned[i].token, owned[j].token))
      && ((owned[i].section, owned[i].field) != (config[k].section, config[k].field) ==>
            Apart(aliases, owned[i].token, config[k].token))
  {
    var owned := ProtectedUses(providers, sensors);
    assert Tokens(owned)[i] == owned[i].token;
    assert Free(aliases, reserved, Tokens(owned)[i]);
    forall j | 0 <= j < |owned| && j != i ensures Apart(aliases, owned[i].token, owned[j].token) {
      AdcPinsApart(aliases, mcus, otherChips, providers, sensors, config, reserved, i, j);
    }
    var use := config[k];
    assert ScanOk(aliases, owned, Chips(providers), use);
    if aliases.Resolve(use.token) == aliases.Resolve(owned[i].token)
       && (owned[i].section, owned[i].field) != (use.section, use.field)
    {
      assert Is(aliases, Tokens(owned)[i], aliases.Resolve(use.token).value);
      var j :| 0 <= j < |owned| && OwnField(aliases, owned, j, use);
    }
  }

  // ----- ownership in terms of the configuration as written -----

  /** The MCU whose alias table the token is looked up in: the reference MCU for a scaled reading. */
  function TableMcu(aliases: Resolver, token: Token): Mcu {
    if token.mcu in aliases.scaledMcus then aliases.scaledMcus[token.mcu] else token.mcu
  }

  /** `ds` are the alias declarations of that MCU, as the table was built from. */
  ghost predicate BuiltFrom(aliases: Resolver, mcu: Mcu, ds: seq<Declaration>)
    reads aliases
  {
    WellDeclared(ds) && AddAllSpec(EMPTY, ds) == Success(aliases.TableOf(mcu))
  }

  /** The declared chains of the two names end in one pin. */
  ghost predicate ChainsMeet(ds: seq<Declaration>, a: Token, b: Token) {
    exists end :: EndsIn(Declared(ds), a.name, end) && EndsIn(Declared(ds), b.name, end)
  }

  lemma ApartChains(aliases: Resolver, mcu: Mcu, ds: seq<Declaration>, a: Token, b: Token)
    requires BuiltFrom(aliases, mcu, ds) && TableMcu(aliases, a) == mcu == TableMcu(aliases, b)
    requires Apart(aliases, a, b)
    ensures !ChainsMeet(ds, a, b)
  {
    forall end ensures !(EndsIn(Declared(ds), a.name, end) && EndsIn(Declared(ds), b.name, end)) {
      ResolutionIsChainEnd(ds, a.name, end);
      ResolutionIsChainEnd(ds, b.name, end);
    }
  }

  /** The declared chains of two distinct names of one table, one of them exclusively owned, never meet in one pin. */
  lemma OwnedChainsNeverMeet(aliases: Resolver, reserved: set<Identity>, owned: seq<Token>, scanned: seq<Token>,
                             mcu: Mcu, ds: seq<Declaration>, i: nat, j: nat)
    requires ExclusivelyOwned(aliases, reserved, owned, scanned) && BuiltFrom(aliases, mcu, ds)
    requires i < |owned| && j < |owned| + |scanned| && i < j
    requires TableMcu(aliases, owned[i]) == mcu == TableMcu(aliases, (owned + scanned)[j])
    ensures !ChainsMeet(ds, owned[i], (owned + scanned)[j])
  {
    hide BuiltFrom;
    if j < |owned| {
      assert Apart(aliases, owned[i], owned[j]);
    } else {
      assert Apart(aliases, owned[i], scanned[j - |owned|]);
    }
    ApartChains(aliases, mcu, ds, owned[i], (owned + scanned)[j]);
  }

  /**
    For the circuits: the chain of a reference pin or of a scaled reading meets neither that of another
    protected use nor that of any scanned use of another field.
   */
  lemma AdcChainsNeverMeet(aliases: Resolver, mcus: set<Mcu>, otherChips: set<Mcu>, providers: seq<Provider>,
                           sensors: seq<Sensor>, config: seq<Use>, reserved: set<Identity>,
                           mcu: Mcu, ds: seq<Declaration>, i: nat, other: Use)
    requires AdcAccepts(aliases, mcus, otherChips, providers, sensors, config, reserved)
    requires BuiltFrom(aliases, mcu, ds)
    requires var owned := ProtectedUses(providers, sensors);
      && i < |owned| && TableMcu(aliases, owned[i].token) == mcu == TableMcu(aliases, other.token)
      && ((exists j: nat :: j < |owned| && j != i && owned[j] == other)
          || (other in config && !other.exempt && (other.section, other.field) != (owned[i].section, owned[i].field)))
    ensures !ChainsMeet(ds, ProtectedUses(providers, sensors)[i].token, other.token)
  {
    hide BuiltFrom, AdcAccepts;
    var owned := ProtectedUses(providers, sensors);
    if j: nat :| j < |owned| && j != i && owned[j] == other {
      assert Apart(aliases, owned[i].token, other.token) by {
        AdcPinsApart(aliases, mcus, otherChips, providers, sensors, config, reserved, i, j);
      }
    } else {
      var k: nat :| k < |config| && config[k] == other;
      AdcAcceptanceIsExclusive(aliases, mcus, otherChips, providers, sensors, config, reserved, i, k);
    }
    ApartChains(aliases, mcu, ds, owned[i].token, other.token);
  }

  lemma AdcPinsApart(aliases: Resolver, mcus: set<Mcu>, otherChips: set<Mcu>, providers: seq<Provider>,
                     sensors: seq<Sensor>, config: seq<Use>, reserved: set<Identity>, i: nat, j: nat)
    requires AdcAccepts(aliases, mcus, otherChips, providers, sensors, config, reserved)
    requires i < |ProtectedUses(providers, sensors)| && j < |ProtectedUses(providers, sensors)| && i != j
    ensures var owned := ProtectedUses(providers, sensors);
      Apart(aliases, owned[i].token, owned[j].token)
  {
    var owned := ProtectedUses(providers, sensors);
    var a, b := if i < j then i else j, if i < j then j else i;
    assert Apart(aliases, Tokens(owned)[a], Tokens(owned)[b]);
  }

  // ----- acceptance in terms of the circuits and their readings -----

  function VrefUse(p: Provider): Use {
    Use(p.section, "vref_pin", false, p.vref, NoGap)
  }

  function VssaUse(p: Provider): Use {
    Use(p.section, "vssa_pin", false, p.vssa, NoGap)
  }

  function ReadingUse(s: Sensor): Use {
    Use(s.section, "sensor_pin", false, s.token, NoGap)
  }

  /** The sensor reads through one of the circuits. */
  ghost predicate Reads(providers: seq<Provider>, s: Sensor) {
    exists p :: p in providers && p.chip == s.token.mcu
  }

  lemma {:induction false} ReferencesAt(providers: seq<Provider>)
    ensures |ReferenceUses(providers)| == 2 * |providers|
    ensures forall i :: 0 <= i < |providers| ==>
      ReferenceUses(providers)[2 * i] == VrefUse(providers[i]) && ReferenceUses(providers)[2 * i + 1] == VssaUse(providers[i])
    decreases |providers|
  {
    if providers != [] {
      ReferencesAt(providers[..|providers| - 1]);
    }
  }

  lemma {:induction false} ScaledLengthens(sensors: seq<Sensor>, chips: set<Mcu>, n: nat)
    requires n <= |sensors|
    ensures ScaledUses(sensors[..n], chips) <= ScaledUses(sensors, chips)
    decreases |sensors| - n
  {
    if n < |sensors| {
      assert sensors[..n + 1][..n] == sensors[..n];
      ScaledLengthens(sensors, chips, n + 1);
    } else {
      assert sensors[..n] == sensors;
    }
  }

  /** Where a scaled reading stands among the protected ones. */
  function Place(sensors: seq<Sensor>, chips: set<Mcu>, k: nat): nat
    requires k <= |sensors|
  {
    |ScaledUses(sensors[..k], chips)|
  }

  lemma ScaledAt(sensors: seq<Sensor>, chips: set<Mcu>, k: nat)
    requires k < |sensors| && sensors[k].token.mcu in chips
    ensures Place(sensors, chips, k) < |ScaledUses(sensors, chips)|
    ensures ScaledUses(sensors, chips)[Place(sensors, chips, k)] == ReadingUse(sensors[k])
    ensures forall l :: k < l < |sensors| ==> Place(sensors, chips, k) < Place(sensors, chips, l)
  {
    assert sensors[..k + 1][..k] == sensors[..k];
    ScaledLengthens(sensors, chips, k + 1);
    forall l | k < l < |sensors| ensures Place(sensors, chips, k) < Place(sensors, chips, l) {
      ScaledLengthens(sensors[..l], chips, k + 1);
      assert sensors[..l][..k + 1] == sensors[..k + 1];
    }
  }

  lemma {:induction false} PlaceOf(sensors: seq<Sensor>, chips: set<Mcu>, at: nat) returns (k: nat)
    requires at < |ScaledUses(sensors, chips)|
    ensures k < |sensors| && sensors[k].token.mcu in chips && at == Place(sensors, chips, k)
    decreases |sensors|
  {
    var n := |sensors| - 1;
    if at < |ScaledUses(sensors[..n], chips)| {
      k := PlaceOf(sensors[..n], chips, at);
      assert sensors[..n][..k] == sensors[..k];
    } else {
      k := n;
    }
  }

  lemma ChipsMean(providers: seq<Provider>, s: Sensor)
    ensures Reads(providers, s) <==> s.token.mcu in Chips(providers)
  {
  }

  /** Protected are the two reference pins of every circuit, every reading through one, and nothing else. */
  lemma ProtectedMeans(providers: seq<Provider>, sensors: seq<Sensor>, use: Use)
    ensures use in ProtectedUses(providers, sensors) <==>
      || (exists p :: p in providers && (use == VrefUse(p) || use == VssaUse(p)))
      || (exists s :: s in sensors && Reads(providers, s) && use == ReadingUse(s))
  {
    hide Chips, Reads;
    var chips, references, scaled := Chips(providers), ReferenceUses(providers), ScaledUses(sensors, Chips(providers));
    ReferencesAt(providers);
    if use in references {
      var i :| 0 <= i < |references| && references[i] == use;
      assert i == 2 * (i / 2) || i == 2 * (i / 2) + 1;
      assert providers[i / 2] in providers;
    }
    if p :| p in providers && (use == VrefUse(p) || use == VssaUse(p)) {
      var i :| 0 <= i < |providers| && providers[i] == p;
      assert references[2 * i] == VrefUse(p) && references[2 * i + 1] == VssaUse(p);
    }
    if use in scaled {
      var at :| 0 <= at < |scaled| && scaled[at] == use;
      var k := PlaceOf(sensors, chips, at);
      ScaledAt(sensors, chips, k);
      ChipsMean(providers, sensors[k]);
    }
    if s :| s in sensors && Reads(providers, s) && use == ReadingUse(s) {
      ChipsMean(providers, s);
      var k :| 0 <= k < |sensors| && sensors[k] == s;
      ScaledAt(sensors, chips, k);
    }
  }

  ghost predicate ReferencesOk(aliases: Resolver, reserved: set<Identity>, providers: seq<Provider>)
    reads aliases
  {
    && (forall i :: 0 <= i < |providers| ==>
          && Free(aliases, reserved, providers[i].vref) && Free(aliases, reserved, providers[i].vssa)
          && Apart(aliases, providers[i].vref, providers[i].vssa))
    && (forall i, j :: 0 <= i < j < |providers| ==>
          && Apart(aliases, providers[i].vref, providers[j].vref) && Apart(aliases, providers[i].vref, providers[j].vssa)
          && Apart(aliases, providers[i].vssa, providers[j].vref) && Apart(aliases, providers[i].vssa, providers[j].vssa))
  }

  ghost predicate ReadingsOk(aliases: Resolver, reserved: set<Identity>, providers: seq<Provider>, sensors: seq<Sensor>)
    reads aliases
  {
    && ReadingsApart(aliases, reserved, providers, sensors)
    && (forall i, k :: 0 <= i < |providers| && 0 <= k < |sensors| && Reads(providers, sensors[k]) ==>
          Apart(aliases, providers[i].vref, sensors[k].token) && Apart(aliases, providers[i].vssa, sensors[k].token))
  }

  lemma ExclusiveAppend(aliases: Resolver, reserved: set<Identity>, a: seq<Token>, b: seq<Token>)
    ensures ExclusivelyOwned(aliases, reserved, a + b, []) <==>
      && ExclusivelyOwned(aliases, reserved, a, []) && ExclusivelyOwned(aliases, reserved, b, [])
      && forall i, j :: 0 <= i < |a| && 0 <= j < |b| ==> Apart(aliases, a[i], b[j])
  {
    hide Apart, Free;
    var all := a + b;
    assert forall i :: 0 <= i < |a| ==> all[i] == a[i];
    assert forall j :: 0 <= j < |b| ==> all[|a| + j] == b[j];
    assert forall j :: |a| <= j < |all| ==> all[j] == b[j - |a|];
  }

  lemma ReferencesExclusive(aliases: Resolver, reserved: set<Identity>, providers: seq<Provider>)
    ensures ExclusivelyOwned(aliases, reserved, Tokens(ReferenceUses(providers)), []) <==>
      ReferencesOk(aliases, reserved, providers)
  {
    hide Apart, Free;
    ReferencesAt(providers);
    var tokens := Tokens(ReferenceUses(providers));
    assert forall i :: 0 <= i < |providers| ==> tokens[2 * i] == providers[i].vref && tokens[2 * i + 1] == providers[i].vssa;
    if ReferencesOk(aliases, reserved, providers) {
      ReferencesAreExclusive(aliases, reserved, providers, tokens);
    }
  }

  lemma ReferencesAreExclusive(aliases: Resolver, reserved: set<Identity>, providers: seq<Provider>, tokens: seq<Token>)
    requires ReferencesOk(aliases, reserved, providers) && |tokens| == 2 * |providers|
    requires forall i :: 0 <= i < |providers| ==> tokens[2 * i] == providers[i].vref && tokens[2 * i + 1] == providers[i].vssa
    ensures ExclusivelyOwned(aliases, reserved, tokens, [])
  {
    hide Apart, Free;
    forall i | 0 <= i < |tokens| ensures Free(aliases, reserved, tokens[i]) {
      var p := providers[i / 2];
      assert i == 2 * (i / 2) || i == 2 * (i / 2) + 1;
    }
    forall i, j | 0 <= i < j < |tokens| ensures Apart(aliases, tokens[i], tokens[j]) {
      var p, q := providers[i / 2], providers[j / 2];
      assert i == 2 * (i / 2) || i == 2 * (i / 2) + 1;
      assert j == 2 * (j / 2) || j == 2 * (j / 2) + 1;
      assert i / 2 <= j / 2;
    }
  }

  ghost predicate StandsAt(providers: seq<Provider>, sensors: seq<Sensor>, k: nat, at: nat) {
    k < |sensors| && Reads(providers, sensors[k]) && Place(sensors, Chips(providers), k) == at
  }

  ghost predicate IsReading(providers: seq<Provider>, sensors: seq<Sensor>, token: Token, at: nat) {
    exists k: nat :: StandsAt(providers, sensors, k, at) && token == sensors[k].token
  }

  /** The scaled readings, in the order of the sensors, are the tokens. */
  ghost predicate InOrder(providers: seq<Provider>, sensors: seq<Sensor>, tokens: seq<Token>) {
    && (forall k: nat :: k < |sensors| && Reads(providers, sensors[k]) ==>
          Place(sensors, Chips(providers), k) < |tokens| && tokens[Place(sensors, Chips(providers), k)] == sensors[k].token)
    && (forall k: nat, l: nat :: k < l < |sensors| && Reads(providers, sensors[k]) ==>
          Place(sensors, Chips(providers), k) < Place(sensors, Chips(providers), l))
    && (forall at: nat :: at < |tokens| ==> IsReading(providers, sensors, tokens[at], at))
  }

  lemma ReadingsAreInOrder(providers: seq<Provider>, sensors: seq<Sensor>)
    ensures InOrder(providers, sensors, Tokens(ScaledUses(sensors, Chips(providers))))
  {
    hide Chips, Reads, ScaledUses, Place;
    var chips, tokens := Chips(providers), Tokens(ScaledUses(sensors, Chips(providers)));
    forall k: nat | k < |sensors| && Reads(providers, sensors[k])
      ensures Place(sensors, chips, k) < |tokens| && tokens[Place(sensors, chips, k)] == sensors[k].token
    {
      ChipsMean(providers, sensors[k]);
      ScaledAt(sensors, chips, k);
    }
    forall k: nat, l: nat | k < l < |sensors| && Reads(providers, sensors[k])
      ensures Place(sensors, chips, k) < Place(sensors, chips, l)
    {
      ChipsMean(providers, sensors[k]);
      ScaledAt(sensors, chips, k);
    }
    forall at: nat | at < |tokens| ensures IsReading(providers, sensors, tokens[at], at) {
      var k := PlaceOf(sensors, chips, at);
      ChipsMean(providers, sensors[k]);
      ScaledAt(sensors, chips, k);
      assert StandsAt(providers, sensors, k, at);
    }
  }

  /** The readings on their own. */
  ghost predicate ReadingsApart(aliases: Resolver, reserved: set<Identity>, providers: seq<Provider>, sensors: seq<Sensor>)
    reads aliases
  {
    && (forall k :: 0 <= k < |sensors| && Reads(providers, sensors[k]) ==> Free(aliases, reserved, sensors[k].token))
    && (forall k, l :: 0 <= k < l < |sensors| && Reads(providers, sensors[k]) && Reads(providers, sensors[l]) ==>
          Apart(aliases, sensors[k].token, sensors[l].token))
  }

  lemma ReadingsExclusive(aliases: Resolver, reserved: set<Identity>, providers: seq<Provider>, sensors: seq<Sensor>)
    ensures ExclusivelyOwned(aliases, reserved, Tokens(ScaledUses(sensors, Chips(providers))), []) <==>
      ReadingsApart(aliases, reserved, providers, sensors)
  {
    hide ExclusivelyOwned, ReadingsApart, InOrder, ScaledUses, Chips;
    var tokens := Tokens(ScaledUses(sensors, Chips(providers)));
    ReadingsAreInOrder(providers, sensors);
    if ExclusivelyOwned(aliases, reserved, tokens, []) {
      ExclusiveReadings(aliases, reserved, providers, sensors, tokens);
    }
    if ReadingsApart(aliases, reserved, providers, sensors) {
      ReadingsOwned(aliases, reserved, providers, sensors, tokens);
    }
  }

  lemma ExclusiveReadings(aliases: Resolver, reserved: set<Identity>, providers: seq<Provider>, sensors: seq<Sensor>, tokens: seq<Token>)
    requires InOrder(providers, sensors, tokens) && ExclusivelyOwned(aliases, reserved, tokens, [])
    ensures ReadingsApart(aliases, reserved, providers, sensors)
  {
    hide Apart, Free, Chips, Reads, Place;
    var chips := Chips(providers);
    forall k | 0 <= k < |sensors| && Reads(providers, sensors[k]) ensures Free(aliases, reserved, sensors[k].token) {
      assert Free(aliases, reserved, tokens[Place(sensors, chips, k)]);
    }
    forall k, l | 0 <= k < l < |sensors| && Reads(providers, sensors[k]) && Reads(providers, sensors[l])
      ensures Apart(aliases, sensors[k].token, sensors[l].token)
    {
      assert Apart(aliases, tokens[Place(sensors, chips, k)], tokens[Place(sensors, chips, l)]);
    }
  }

  lemma ReadingsOwned(aliases: Resolver, reserved: set<Identity>, providers: seq<Provider>, sensors: seq<Sensor>, tokens: seq<Token>)
    requires InOrder(providers, sensors, tokens) && ReadingsApart(aliases, reserved, providers, sensors)
    ensures ExclusivelyOwned(aliases, reserved, tokens, [])
  {
    hide Apart, Free, Chips, Reads, Place;
    var chips := Chips(providers);
    forall a | 0 <= a < |tokens| ensures Free(aliases, reserved, tokens[a]) {
      assert IsReading(providers, sensors, tokens[a], a);
      var k: nat :| StandsAt(providers, sensors, k, a) && tokens[a] == sensors[k].token;
    }
    forall a, b | 0 <= a < b < |tokens| ensures Apart(aliases, tokens[a], tokens[b]) {
      assert IsReading(providers, sensors, tokens[a], a) && IsReading(providers, sensors, tokens[b], b);
      var k: nat :| StandsAt(providers, sensors, k, a) && tokens[a] == sensors[k].token;
      var l: nat :| StandsAt(providers, sensors, l, b) && tokens[b] == sensors[l].token;
      assert k < l;
    }
  }

  /** The protected pins are owned exclusively when the circuits and the readings have pins of their own. */
  lemma ProtectedExclusive(aliases: Resolver, reserved: set<Identity>, providers: seq<Provider>, sensors: seq<Sensor>)
    ensures ExclusivelyOwned(aliases, reserved, Tokens(ProtectedUses(providers, sensors)), []) <==>
      ReferencesOk(aliases, reserved, providers) && ReadingsOk(aliases, reserved, providers, sensors)
  {
    hide ExclusivelyOwned, Apart, Free, ReferencesOk, ReadingsApart, Reads, Chips, ScaledUses, ReferenceUses;
    var references, scaled := ReferenceUses(providers), ScaledUses(sensors, Chips(providers));
    var a, b := Tokens(references), Tokens(scaled);
    assert Tokens(ProtectedUses(providers, sensors)) == a + b;
    ExclusiveAppend(aliases, reserved, a, b);
    ReferencesExclusive(aliases, reserved, providers);
    ReadingsExclusive(aliases, reserved, providers, sensors);
    CrossApart(aliases, providers, sensors);
  }

  lemma CrossApart(aliases: Resolver, providers: seq<Provider>, sensors: seq<Sensor>)
    ensures var a, b := Tokens(ReferenceUses(providers)), Tokens(ScaledUses(sensors, Chips(providers)));
      (forall i, j :: 0 <= i < |a| && 0 <= j < |b| ==> Apart(aliases, a[i], b[j])) <==>
      (forall i, k :: 0 <= i < |providers| && 0 <= k < |sensors| && Reads(providers, sensors[k]) ==>
         Apart(aliases, providers[i].vref, sensors[k].token) && Apart(aliases, providers[i].vssa, sensors[k].token))
  {
    hide Apart, Reads, Chips, ScaledUses, ReferenceUses;
    var chips := Chips(providers);
    var a, b := Tokens(ReferenceUses(providers)), Tokens(ScaledUses(sensors, chips));
    ReferencesAt(providers);
    if forall i, j :: 0 <= i < |a| && 0 <= j < |b| ==> Apart(aliases, a[i], b[j]) {
      forall i, k | 0 <= i < |providers| && 0 <= k < |sensors| && Reads(providers, sensors[k])
        ensures Apart(aliases, providers[i].vref, sensors[k].token) && Apart(aliases, providers[i].vssa, sensors[k].token)
      {
        ChipsMean(providers, sensors[k]);
        ScaledAt(sensors, chips, k);
        assert a[2 * i] == providers[i].vref && a[2 * i + 1] == providers[i].vssa;
        assert b[Place(sensors, chips, k)] == sensors[k].token;
      }
    }
    if forall i, k :: 0 <= i < |providers| && 0 <= k < |sensors| && Reads(providers, sensors[k]) ==>
         Apart(aliases, providers[i].vref, sensors[k].token) && Apart(aliases, providers[i].vssa, sensors[k].token)
    {
      forall i, j | 0 <= i < |a| && 0 <= j < |b| ensures Apart(aliases, a[i], b[j]) {
        var k := PlaceOf(sensors, chips, j);
        ScaledAt(sensors, chips, k);
        ChipsMean(providers, sensors[k]);
        assert i == 2 * (i / 2) || i == 2 * (i / 2) + 1;
        assert Apart(aliases, providers[i / 2].vref, sensors[k].token);
      }
    }
  }

  /** The circuits: names of their own, and two reference pins of one known MCU. */
  ghost predicate CircuitsOk(aliases: Resolver, mcus: set<Mcu>, otherChips: set<Mcu>, providers: seq<Provider>)
    reads aliases
  {
    && (forall i :: 0 <= i < |providers| ==>
          && providers[i].chip !in mcus + otherChips && providers[i].vref.mcu in mcus && providers[i].vssa.mcu in mcus
          && exists mcu, a, b :: Is(aliases, providers[i].vref, (mcu, a)) && Is(aliases, providers[i].vssa, (mcu, b)))
    && (forall i, j :: 0 <= i < j < |providers| ==> providers[i].chip != providers[j].chip)
  }

  /** A scanned use is one of the protected fields on its own pin, or neither reads a circuit nor meets a protected pin. */
  ghost predicate Harmless(aliases: Resolver, providers: seq<Provider>, sensors: seq<Sensor>, use: Use)
    reads aliases
  {
    && aliases.Resolve(use.token).Success?
    && var pin := aliases.Resolve(use.token).value;
       || (exists own :: own in ProtectedUses(providers, sensors) && own.section == use.section && own.field == use.field
                         && Is(aliases, own.token, pin))
       || ((forall p :: p in providers ==> p.chip != use.token.mcu)
           && forall own :: own in ProtectedUses(providers, sensors) ==> !Is(aliases, own.token, pin))
  }

  /**
    The whole check, in terms of the circuits and the sensors: every circuit has its own name and two
    free reference pins of one MCU; every reading through one is a thermal input that comes after it;
    all these pins are free and distinct; and no other use meets one of them or reads a circuit.
   */
  lemma AdcAcceptsExactly(aliases: Resolver, mcus: set<Mcu>, otherChips: set<Mcu>, providers: seq<Provider>,
                          sensors: seq<Sensor>, config: seq<Use>, reserved: set<Identity>)
    ensures AdcAccepts(aliases, mcus, otherChips, providers, sensors, config, reserved) <==>
      && CircuitsOk(aliases, mcus, otherChips, providers)
      && (forall k, p :: 0 <= k < |sensors| && p in providers && p.chip == sensors[k].token.mcu ==>
            sensors[k].thermal && p.position < sensors[k].position)
      && ReferencesOk(aliases, reserved, providers) && ReadingsOk(aliases, reserved, providers, sensors)
      && (forall k :: 0 <= k < |config| && !config[k].exempt ==> Harmless(aliases, providers, sensors, config[k]))
  {
    hide ExclusivelyOwned, ReferencesOk, ReadingsOk, ProvidersOk, CircuitsOk, SensorOk, ScanOk, Harmless, ProtectedUses;
    ProvidersExactly(aliases, mcus, otherChips, providers);
    ProtectedExclusive(aliases, reserved, providers, sensors);
    SensorsExactly(providers, sensors);
    forall k | 0 <= k < |config|
      ensures ScanOk(aliases, ProtectedUses(providers, sensors), Chips(providers), config[k]) <==>
        (config[k].exempt || Harmless(aliases, providers, sensors, config[k]))
    {
      ScanExactly(aliases, providers, sensors, config[k]);
    }
  }

  lemma ProvidersExactly(aliases: Resolver, mcus: set<Mcu>, otherChips: set<Mcu>, providers: seq<Provider>)
    ensures ProvidersOk(aliases, mcus, otherChips, providers) <==> CircuitsOk(aliases, mcus, otherChips, providers)
  {
    forall i | 0 <= i < |providers|
      ensures SameMcu(aliases, providers[i].vref, providers[i].vssa) <==>
        exists mcu, a, b :: Is(aliases, providers[i].vref, (mcu, a)) && Is(aliases, providers[i].vssa, (mcu, b))
    {
      var vref, vssa := aliases.Resolve(providers[i].vref), aliases.Resolve(providers[i].vssa);
      if SameMcu(aliases, providers[i].vref, providers[i].vssa) {
        assert Is(aliases, providers[i].vref, (vref.value.0, vref.value.1)) && Is(aliases, providers[i].vssa, (vref.value.0, vssa.value.1));
      }
    }
  }

  lemma SensorsExactly(providers: seq<Provider>, sensors: seq<Sensor>)
    ensures (forall i :: 0 <= i < |sensors| ==> SensorOk(providers, sensors[i])) <==>
      (forall k, p :: 0 <= k < |sensors| && p in providers && p.chip == sensors[k].token.mcu ==>
         sensors[k].thermal && p.position < sensors[k].position)
  {
  }

  lemma ScanExactly(aliases: Resolver, providers: seq<Provider>, sensors: seq<Sensor>, use: Use)
    ensures ScanOk(aliases, ProtectedUses(providers, sensors), Chips(providers), use) <==>
      (use.exempt || Harmless(aliases, providers, sensors, use))
  {
    hide ProtectedUses;
    var owned := ProtectedUses(providers, sensors);
    if !use.exempt && aliases.Resolve(use.token).Success? {
      var pin := aliases.Resolve(use.token).value;
      TakenMeans(aliases, owned, pin);
      if own :| own in owned && own.section == use.section && own.field == use.field && Is(aliases, own.token, pin) {
        var i :| 0 <= i < |owned| && owned[i] == own;
        assert OwnField(aliases, owned, i, use);
      }
      if i: nat :| i < |owned| && OwnField(aliases, owned, i, use) {
        assert owned[i] in owned;
      }
    }
  }

  lemma TakenMeans(aliases: Resolver, owned: seq<Use>, pin: Identity)
    ensures TakenBy(aliases, Tokens(owned), pin) <==> exists own :: own in owned && Is(aliases, own.token, pin)
  {
    if own :| own in owned && Is(aliases, own.token, pin) {
      var i :| 0 <= i < |owned| && owned[i] == own;
      assert Is(aliases, Tokens(owned)[i], pin);
    }
  }

  // ----- static outputs in terms of the configuration -----

  lemma {:induction false} ScannedUses(aliases: Resolver, owned: seq<Token>, config: seq<Use>, skipped: set<string>)
    ensures AllClear(aliases, owned, Scanned(config, skipped, true)) <==>
      forall k :: 0 <= k < |config| && config[k].section !in skipped && !config[k].exempt ==> Clear(aliases, owned, config[k].token)
    decreases |config|
  {
    hide AllClear, Clear;
    if config == [] {
      assert AllClear(aliases, owned, []) by { NothingScanned(aliases, owned, [], skipped, true); }
    } else {
      var init, use := config[..|config| - 1], config[|config| - 1];
      ScannedUses(aliases, owned, init, skipped);
      AllClearAppend(aliases, owned, Scanned(init, skipped, true), [use.token]);
      OneToken(aliases, owned, use.token);
      assert forall k :: 0 <= k < |init| ==> init[k] == config[k];
    }
  }

  /** Exclusive outputs, pairwise: free and distinct, and met by no use of a section that is no output's. */
  lemma ExclusiveOutputsMean(aliases: Resolver, outputs: seq<Use>, config: seq<Use>, reserved: set<Identity>)
    ensures ExclusivelyOwned(aliases, reserved, Tokens(outputs), Scanned(config, Sections(outputs), true)) <==>
      && (forall i :: 0 <= i < |outputs| ==> Free(aliases, reserved, outputs[i].token))
      && (forall i, j :: 0 <= i < j < |outputs| ==> Apart(aliases, outputs[i].token, outputs[j].token))
      && (forall k :: 0 <= k < |config| && !config[k].exempt && (forall o :: o in outputs ==> o.section != config[k].section) ==>
            Clear(aliases, Tokens(outputs), config[k].token))
  {
    hide Clear, AllClear, Scanned, Free, Apart;
    OwnedAndClear(aliases, reserved, Tokens(outputs), Scanned(config, Sections(outputs), true));
    ScannedUses(aliases, Tokens(outputs), config, Sections(outputs));
  }

  // ----- how a use is read -----

  /** A written pin, cut at its colon; without one it is on the main MCU. */
  function Parse(word: string): Token {
    var at := ColonAt(word);
    if at == |word| then Token(MAIN, word) else Token(word[..at], word[at + 1..])
  }

  function ColonAt(word: string): (at: nat)
    ensures at <= |word| && ':' !in word[..at] && (at < |word| ==> word[at] == ':')
  {
    if word == "" || word[0] == ':' then 0 else 1 + ColonAt(word[1..])
  }

  /** The words of a use as it is written, with or without whitespace at its colon. */
  function Words(use: Use): seq<string> {
    match use.gap
    case NoGap => [use.token.mcu + ":" + use.token.name]
    case Before => [use.token.mcu, ":" + use.token.name]
    case After => [use.token.mcu + ":", use.token.name]
    case Around => [use.token.mcu, ":", use.token.name]
  }

  lemma ParsedAt(mcu: string, name: string)
    requires ':' !in mcu
    ensures Parse(mcu + ":" + name) == Token(mcu, name)
  {
    var word := mcu + ":" + name;
    assert word[|mcu|] == ':' && forall k :: 0 <= k < |mcu| ==> word[k] == mcu[k] && mcu[k] in mcu;
    assert forall n :: |mcu| < n <= |word| ==> word[..n][|mcu|] in word[..n];
    assert word[..|mcu|] == mcu && word[|mcu| + 1..] == name;
  }

  lemma ParsedWhole(word: string)
    requires ':' !in word
    ensures Parse(word) == Token(MAIN, word)
  {
    assert forall k :: 0 <= k < |word| ==> word[k] in word;
  }

  /** A check that splits at whitespace reads each word of a use as a pin of its own. */
  lemma PiecesAreWords(use: Use)
    requires ':' !in use.token.mcu && ':' !in use.token.name
    ensures |use.Read(false)| == |Words(use)|
    ensures forall i :: 0 <= i < |Words(use)| ==> use.Read(false)[i] == Parse(Words(use)[i])
    ensures use.Read(true) == [use.token]
  {
    hide Parse;
    var mcu, name := use.token.mcu, use.token.name;
    ParsedAt(mcu, name);
    ParsedAt("", name);
    ParsedAt(mcu, "");
    ParsedAt("", "");
    ParsedWhole(mcu);
    ParsedWhole(name);
    assert "" + ":" + name == ":" + name && mcu + ":" + "" == mcu + ":" && "" + ":" + "" == ":";
  }
}

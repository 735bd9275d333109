/**
  The remote configuration store as one KACE process sees it.

  Other writers may change the store between any two calls, and every call may raise, before or
  after it took effect; both are modelled by arbitrary choice (`*`).  The ghost `trace` lists the
  calls that reached the store, each with the store it found and the store it left.
 */
module Transport {
  import opened Prelude

  newtype byte = x: int | 0 <= x < 256
  type Bytes = seq<byte>
  /** A file below the configuration root; the ones KACE itself names are told apart. */
  datatype Name = Root | MoonrakerConf | Hardware | Macros | LegacyMacros | UserFile(path: string)
  type Store = map<Name, Bytes>

  /** What a set of files was found to contain; `None` is a confirmed absence. */
  type Contents = map<Name, Option<Bytes>>

  function Lookup(store: Store, name: Name): Option<Bytes> {
    if name in store then Some(store[name]) else None
  }

  /** The exception classes that the transaction tells apart. */
  datatype Exn = Conflict | OsFailure | FirmwareMismatch | OtherFailure | Interrupt

  datatype Kind = MoonrakerHttp | Sftp | OfflineLocal | LocalMoonraker

  /** Moonraker never conditions a write, SFTP and removable media only a creation. */
  predicate SupportsConditionalWrite(kind: Kind, previous: Option<Bytes>) {
    match kind
    case MoonrakerHttp => false
    case Sftp => previous.None?
    case OfflineLocal => previous.None?
    case LocalMoonraker => true
  }

  datatype KlipperState = Ready | Startup | Shutdown | Error | Disconnected
  datatype Mode = FirmwareRestart | ServiceRestart | NoActivation

  datatype Call =
    | ReadOne(name: Name, seen: Option<Bytes>)
    | Upload(name: Name, content: Bytes, expected: Option<Bytes>, applied: bool, raised: bool)
    | ValidateTarget
    | Online(up: bool)
    | State(state: KlipperState)
    | Restart(mode: Mode)
    | RestartMoonraker
    | FirmwareVerified
    | ActiveConfigVerified

  datatype Event = Event(before: Store, call: Call, after: Store)
  type Trace = seq<Event>

  /** Only an applied upload changes the store, and only where it found what it expected. */
  ghost predicate Legit(e: Event) {
    match e.call
    case ReadOne(name, seen) => e.after == e.before && seen == Lookup(e.before, name)
    case Upload(name, content, expected, applied, raised) =>
      && (!raised ==> applied)
      && (applied ==> Lookup(e.before, name) == expected && e.after == e.before[name := content])
      && (!applied ==> e.after == e.before)
    case _ => e.after == e.before
  }

  ghost predicate AllLegit(tr: Trace) {
    forall i :: 0 <= i < |tr| ==> Legit(tr[i])
  }

  ghost predicate Quiet(tr: Trace) {
    forall i :: 0 <= i < |tr| ==> !tr[i].call.Upload?
  }

  ghost predicate OnlyReads(tr: Trace) {
    forall i :: 0 <= i < |tr| ==> tr[i].call.ReadOne?
  }

  lemma Joined(a: Trace, b: Trace)
    ensures Quiet(a) && Quiet(b) ==> Quiet(a + b)
    ensures OnlyReads(a) && OnlyReads(b) ==> OnlyReads(a + b)
    ensures OnlyReads(a) ==> Quiet(a)
  {
  }

  lemma Nothing()
    ensures Quiet([]) && OnlyReads([])
  {
  }

  ghost predicate Saw(tr: Trace, name: Name, content: Option<Bytes>) {
    exists i :: 0 <= i < |tr| && tr[i].call == ReadOne(name, content)
  }

  /** Every entry of `contents` was returned by some read in `tr`. */
  ghost predicate Evidence(tr: Trace, contents: Contents) {
    forall name :: name in contents ==> Saw(tr, name, contents[name])
  }

  lemma SawExtends(tr: Trace, left: Trace, right: Trace, name: Name, content: Option<Bytes>)
    requires Saw(tr, name, content)
    ensures Saw(left + tr + right, name, content)
  {
    var i :| 0 <= i < |tr| && tr[i].call == ReadOne(name, content);
    assert (left + tr + right)[|left| + i] == tr[i];
  }

  lemma EvidenceStep(ev: Trace, found: Contents, e: Trace, name: Name, content: Option<Bytes>)
    requires Evidence(ev, found) && |e| == 1 && e[0].call == ReadOne(name, content)
    ensures Evidence(ev + e, found[name := content])
  {
    var extended := found[name := content];
    forall n | n in extended ensures Saw(ev + e, n, extended[n]) {
      if n == name {
        assert (ev + e)[|ev|] == e[0];
      } else {
        SawExtends(ev, [], e, n, found[n]);
        assert [] + ev + e == ev + e;
      }
    }
  }

  method MayRaise() returns (raised: Option<Exn>) {
    raised := *;
  }

  class ConfigTransport {
    const kind: Kind
    var store: Store
    ghost var trace: Trace

    constructor (kind: Kind, store: Store)
      ensures this.kind == kind && this.store == store && trace == []
    {
      this.kind := kind;
      this.store := store;
      trace := [];
    }

    /** Any number of edits by other programs. */
    method OutsideEdits()
      modifies this`store
    {
      store := *;
    }

    method ReadFile(name: Name) returns (r: Result<Option<Bytes>, Exn>, ghost ev: Trace)
      requires AllLegit(trace)
      modifies this
      ensures trace == old(trace) + ev && AllLegit(trace) && OnlyReads(ev)
      ensures r.Success? ==> |ev| == 1 && ev[0].call == ReadOne(name, r.value)
    {
      OutsideEdits();
      var raised := MayRaise();
      if raised.Some? {
        return Failure(raised.value), [];
      }
      r := Success(Lookup(store, name));
      ev := [Event(store, ReadOne(name, r.value), store)];
      trace := trace + ev;
    }

    /** Reads the files one at a time: a multi-file read is not atomic. */
    method ReadFiles(names: set<Name>) returns (r: Result<Contents, Exn>, ghost ev: Trace)
      requires AllLegit(trace)
      modifies this
      ensures trace == old(trace) + ev && AllLegit(trace) && OnlyReads(ev)
      ensures r.Success? ==> r.value.Keys == names && Evidence(ev, r.value)
    {
      ev := [];
      var todo := names;
      var found: Contents := map[];
      while todo != {}
        invariant trace == old(trace) + ev && AllLegit(trace) && OnlyReads(ev)
        invariant found.Keys == names - todo && todo <= names
        invariant Evidence(ev, found)
        decreases |todo|
      {
        var name :| name in todo;
        var one;
        ghost var e;
        one, e := ReadFile(name);
        if one.Failure? {
          return Failure(one.error), ev + e;
        }
        EvidenceStep(ev, found, e, name, one.value);
        ev := ev + e;
        found := found[name := one.value];
        todo := todo - {name};
      }
      r := Success(found);
    }

    /**
      One atomic compare-and-swap where the transport has one, a refusal where it has none.  The
      write may be applied and the call still raise.
     */
    method UploadIfUnchanged(name: Name, content: Bytes, expected: Option<Bytes>)
      returns (raised: Option<Exn>, ghost e: Event)
      requires AllLegit(trace)
      modifies this
      ensures trace == old(trace) + [e] && AllLegit(trace)
      ensures e.call.Upload? && e.call.name == name && e.call.content == content && e.call.expected == expected
      ensures e.call.raised == raised.Some? && (raised.None? ==> e.call.applied)
      ensures e.call.applied ==> SupportsConditionalWrite(kind, expected)
      ensures kind == MoonrakerHttp || (kind in {Sftp, OfflineLocal} && expected.Some?) ==>
        raised == Some(Conflict) && !e.call.applied
    {
      OutsideEdits();
      ghost var before := store;
      raised := MayRaise();
      if !SupportsConditionalWrite(kind, expected) {
        raised := Some(Conflict);
        e := Event(before, Upload(name, content, expected, false, true), before);
      } else {
        var delivered := raised.None?;
        if raised.Some? {
          delivered := *;
        }
        if delivered && Lookup(store, name) == expected {
          store := store[name := content];
          e := Event(before, Upload(name, content, expected, true, raised.Some?), store);
        } else {
          if raised.None? {
            raised := Some(Conflict);
          }
          e := Event(before, Upload(name, content, expected, false, true), before);
        }
      }
      trace := trace + [e];
    }

    /** A call with no effect on the configuration files: logged when it answers. */
    method Perform(call: Call) returns (raised: Option<Exn>, ghost ev: Trace)
      requires AllLegit(trace) && !call.Upload? && !call.ReadOne?
      modifies this
      ensures trace == old(trace) + ev && AllLegit(trace) && Quiet(ev)
      ensures raised.None? ==> |ev| == 1 && ev[0].call == call
      ensures raised.Some? ==> ev == []
    {
      OutsideEdits();
      raised := MayRaise();
      ev := if raised.None? then [Event(store, call, store)] else [];
      trace := trace + ev;
    }

    method MoonrakerOnline() returns (r: Result<bool, Exn>, ghost ev: Trace)
      requires AllLegit(trace)
      modifies this
      ensures trace == old(trace) + ev && AllLegit(trace) && Quiet(ev)
      ensures if r.Success? then |ev| == 1 && ev[0].call == Online(r.value) else ev == []
    {
      var up: bool := *;
      var raised;
      raised, ev := Perform(Online(up));
      r := if raised.None? then Success(up) else Failure(raised.value);
    }

    method ReadKlipperState() returns (r: Result<KlipperState, Exn>, ghost ev: Trace)
      requires AllLegit(trace)
      modifies this
      ensures trace == old(trace) + ev && AllLegit(trace) && Quiet(ev)
      ensures if r.Success? then |ev| == 1 && ev[0].call == State(r.value) else ev == []
    {
      var state: KlipperState := *;
      var raised;
      raised, ev := Perform(State(state));
      r := if raised.None? then Success(state) else Failure(raised.value);
    }
  }
}

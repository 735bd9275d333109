/**
  The reviewed baseline: the fixed candidate files and everything they include.

  How an include line is recognised in a file is a parameter (`None` is the refusal of a path that
  cannot be reviewed safely); what is modelled is which files are read because of it.
 */
module IncludeGraph {
  import opened Prelude
  import opened Transport

  type Includes = (Bytes, Name) -> Option<seq<Name>>

  const CANDIDATES: set<Name> := {Root, MoonrakerConf, Hardware, Macros, LegacyMacros}
  const MAX_FILES := 256
  const MAX_BYTES := 8 * 1024 * 1024

  /** A text to scan for includes, with the file name its relative paths start from. */
  type Source = (Name, Bytes)

  function Seeds(hardware: Bytes, macros: Option<Bytes>, root: Option<Bytes>): set<Source> {
    {(Root, hardware)} + (if macros.Some? then {(Macros, macros.value)} else {})
    + (if root.Some? then {(Root, root.value)} else {})
  }

  ghost predicate IncludesName(inc: Includes, source: Source, name: Name) {
    inc(source.1, source.0).Some? && name in inc(source.1, source.0).value
  }

  ghost predicate SeedIncludes(inc: Includes, seeds: set<Source>, name: Name) {
    exists s :: s in seeds && IncludesName(inc, s, name)
  }

  /** The file `name`, as it was read, includes `next`. */
  ghost predicate FileIncludes(inc: Includes, state: Contents, name: Name, next: Name) {
    name in state && state[name].Some? && IncludesName(inc, (name, state[name].value), next)
  }

  /** No text holds an include that cannot be reviewed safely. */
  ghost predicate Readable(inc: Includes, sources: set<Source>) {
    forall s :: s in sources ==> inc(s.1, s.0).Some?
  }

  /** A chain of includes that starts in a seed and follows the files in `state`. */
  ghost predicate IncludePath(inc: Includes, seeds: set<Source>, state: Contents, path: seq<Name>) {
    && path != []
    && SeedIncludes(inc, seeds, path[0])
    && forall i :: 1 <= i < |path| ==> FileIncludes(inc, state, path[i - 1], path[i])
  }

  ghost predicate Reachable(inc: Includes, seeds: set<Source>, state: Contents, name: Name) {
    exists path :: IncludePath(inc, seeds, state, path) && path[|path| - 1] == name
  }

  /** Exactly the candidates and the include-reachable names have an entry. */
  ghost predicate CompleteBaseline(inc: Includes, seeds: set<Source>, state: Contents) {
    && CANDIDATES <= state.Keys
    && forall name :: name in state <==> name in CANDIDATES || Reachable(inc, seeds, state, name)
  }

  lemma ReachableGrows(inc: Includes, seeds: set<Source>, state: Contents, bigger: Contents, name: Name)
    requires Reachable(inc, seeds, state, name)
    requires forall n :: n in state ==> n in bigger && bigger[n] == state[n]
    ensures Reachable(inc, seeds, bigger, name)
  {
    var path :| IncludePath(inc, seeds, state, path) && path[|path| - 1] == name;
    forall i | 1 <= i < |path| ensures FileIncludes(inc, bigger, path[i - 1], path[i]) {
      assert FileIncludes(inc, state, path[i - 1], path[i]);
    }
  }

  lemma ReachableStep(inc: Includes, seeds: set<Source>, state: Contents, name: Name, next: Name)
    requires Reachable(inc, seeds, state, name) && FileIncludes(inc, state, name, next)
    ensures Reachable(inc, seeds, state, next)
  {
    var path :| IncludePath(inc, seeds, state, path) && path[|path| - 1] == name;
    assert IncludePath(inc, seeds, state, path + [next]);
    assert (path + [next])[|path|] == next;
  }

  /** `done` is closed: whatever a scanned text includes was read, and scanned in turn. */
  ghost predicate ScannedFile(state: Contents, done: set<Source>, name: Name) {
    name in state && (state[name].Some? ==> (name, state[name].value) in done)
  }

  ghost predicate Closed(inc: Includes, seeds: set<Source>, state: Contents, done: set<Source>) {
    && seeds <= done
    && forall s, name :: s in done && IncludesName(inc, s, name) ==> ScannedFile(state, done, name)
  }

  lemma {:induction false} ClosedReaches(inc: Includes, seeds: set<Source>, state: Contents,
                                         done: set<Source>, path: seq<Name>)
    requires Closed(inc, seeds, state, done) && IncludePath(inc, seeds, state, path)
    ensures ScannedFile(state, done, path[|path| - 1])
    decreases |path|
  {
    if |path| == 1 {
      var s :| s in seeds && IncludesName(inc, s, path[0]);
    } else {
      var init := path[..|path| - 1];
      var last := init[|init| - 1];
      assert IncludePath(inc, seeds, state, init) by {
        forall i | 1 <= i < |init| ensures FileIncludes(inc, state, init[i - 1], init[i]) {
          assert FileIncludes(inc, state, path[i - 1], path[i]);
        }
      }
      ClosedReaches(inc, seeds, state, done, init);
      assert FileIncludes(inc, state, path[|path| - 2], path[|path| - 1]);
    }
  }

  /** At most one scanned text per file read, besides the three seeds. */
  lemma {:induction false} ScannedBound(state: Contents, seeds: set<Source>, done: set<Source>)
    requires forall s :: s in done ==> s in seeds || (s.0 in state && state[s.0] == Some(s.1))
    ensures |done| <= |seeds| + |state|
    decreases |state|
  {
    if state == map[] {
      assert done <= seeds;
      SubsetCard(done, seeds);
    } else {
      var name :| name in state;
      var rest := state - {name};
      assert |rest| == |state| - 1 by {
        assert rest.Keys == state.Keys - {name};
        assert |rest.Keys| == |state.Keys| - 1;
      }
      if state[name].Some? && (name, state[name].value) in done {
        var s := (name, state[name].value);
        ScannedBound(rest, seeds, done - {s});
        assert |done| == |done - {s}| + 1;
      } else {
        ScannedBound(rest, seeds, done);
      }
    }
  }

  lemma {:induction false} SubsetCard<T>(small: set<T>, big: set<T>)
    requires small <= big
    ensures |small| <= |big|
    decreases small
  {
    if small != {} {
      var x :| x in small;
      SubsetCard(small - {x}, big - {x});
    }
  }

  lemma SeedsBound(hardware: Bytes, macros: Option<Bytes>, root: Option<Bytes>)
    ensures |Seeds(hardware, macros, root)| <= 3
  {
    var a: set<Source> := {(Root, hardware)};
    var b: set<Source> := if macros.Some? then {(Macros, macros.value)} else {};
    var c: set<Source> := if root.Some? then {(Root, root.value)} else {};
    assert |a + b| <= |a| + |b|;
    assert |a + b + c| <= |a + b| + |c|;
  }

  /** Why a pending text is scanned: it is a seed, or a file read because it is reachable. */
  ghost predicate Justified(inc: Includes, seeds: set<Source>, state: Contents, source: Source) {
    source in seeds
    || (Reachable(inc, seeds, state, source.0) && source.0 in state && state[source.0] == Some(source.1))
  }

  type Pending = seq<(Name, Option<Bytes>)>

  /** A name some scanned text includes: read, and scanned or still waiting to be. */
  ghost predicate Tracked(state: Contents, visited: set<Source>, pending: Pending, name: Name) {
    name in state
    && (state[name].Some? ==> (name, state[name].value) in visited || (name, state[name]) in pending)
  }

  /** The worklist invariant; `complete` are the visited texts whose includes are all tracked. */
  ghost predicate Scanning(inc: Includes, seeds: set<Source>, state: Contents,
                           visited: set<Source>, complete: set<Source>, pending: Pending)
  {
    && CANDIDATES <= state.Keys
    && (forall n :: n in state && n !in CANDIDATES ==> Reachable(inc, seeds, state, n))
    && (forall p :: p in pending && p.1.Some? ==> Justified(inc, seeds, state, (p.0, p.1.value)))
    && (forall s :: s in visited ==> Justified(inc, seeds, state, s))
    && (forall s :: s in seeds ==> s in visited || (s.0, Some(s.1)) in pending)
    && (forall s, n :: s in complete && IncludesName(inc, s, n) ==> Tracked(state, visited, pending, n))
  }

  lemma SplitLast(pending: Pending)
    requires pending != []
    ensures forall p :: p in pending <==> p in pending[..|pending| - 1] || p == pending[|pending| - 1]
  {
    assert pending == pending[..|pending| - 1] + [pending[|pending| - 1]];
  }

  lemma SkipStep(inc: Includes, seeds: set<Source>, state: Contents, visited: set<Source>, pending: Pending)
    requires Scanning(inc, seeds, state, visited, visited, pending) && pending != []
    requires var (n, c) := pending[|pending| - 1]; c.None? || (n, c.value) in visited
    ensures Scanning(inc, seeds, state, visited, visited, pending[..|pending| - 1])
  {
    SplitLast(pending);
  }

  lemma ScanStep(inc: Includes, seeds: set<Source>, state: Contents, visited: set<Source>, pending: Pending,
                 key: Source)
    requires Scanning(inc, seeds, state, visited, visited, pending) && pending != []
    requires pending[|pending| - 1] == (key.0, Some(key.1))
    ensures Scanning(inc, seeds, state, visited + {key}, visited, pending[..|pending| - 1])
  {
    SplitLast(pending);
    assert Justified(inc, seeds, state, key);
  }

  lemma IncludeStep(inc: Includes, seeds: set<Source>, state: Contents, bigger: Contents, visited: set<Source>,
                    complete: set<Source>, pending: Pending, key: Source, name: Name)
    requires Scanning(inc, seeds, state, visited, complete, pending)
    requires key in visited && IncludesName(inc, key, name)
    requires forall n :: n in state ==> n in bigger && bigger[n] == state[n]
    requires bigger.Keys == state.Keys + {name}
    ensures var more := pending + [(name, bigger[name])];
      && Scanning(inc, seeds, bigger, visited, complete, more)
      && Tracked(bigger, visited, more, name)
      && forall n :: Tracked(state, visited, pending, n) ==> Tracked(bigger, visited, more, n)
  {
    var more := pending + [(name, bigger[name])];
    assert more[|pending|] == (name, bigger[name]);
    assert forall p :: p in more <==> p in pending || p == (name, bigger[name]);
    forall n | Reachable(inc, seeds, state, n) ensures Reachable(inc, seeds, bigger, n) {
      ReachableGrows(inc, seeds, state, bigger, n);
    }
    assert forall s :: Justified(inc, seeds, state, s) ==> Justified(inc, seeds, bigger, s);
    ReachedByKey(inc, seeds, bigger, key, name);
  }

  lemma WorklistDone(inc: Includes, seeds: set<Source>, state: Contents, visited: set<Source>)
    requires Scanning(inc, seeds, state, visited, visited, [])
    ensures CompleteBaseline(inc, seeds, state) && seeds <= visited
  {
    assert Closed(inc, seeds, state, visited);
    forall n | Reachable(inc, seeds, state, n) ensures n in state {
      var path :| IncludePath(inc, seeds, state, path) && path[|path| - 1] == n;
      ClosedReaches(inc, seeds, state, visited, path);
    }
  }

  lemma ReachedByKey(inc: Includes, seeds: set<Source>, state: Contents, key: Source, name: Name)
    requires Justified(inc, seeds, state, key) && IncludesName(inc, key, name)
    ensures Reachable(inc, seeds, state, name)
  {
    if key in seeds {
      assert IncludePath(inc, seeds, state, [name]);
    } else {
      assert FileIncludes(inc, state, key.0, name);
      ReachableStep(inc, seeds, state, key.0, name);
    }
  }

  /** Reads one included file unless it was read before, and queues it. */
  method ReadIncluded(transport: ConfigTransport, inc: Includes, ghost seeds: set<Source>, ghost key: Source,
                      name: Name, state: Contents, ghost visited: set<Source>, pending: Pending, ghost past: Trace)
    returns (r: Result<(Contents, Pending), Exn>, ghost ev: Trace)
    requires AllLegit(transport.trace)
    requires key in visited && IncludesName(inc, key, name)
    requires Scanning(inc, seeds, state, visited, visited - {key}, pending) && Evidence(past, state)
    modifies transport
    ensures transport.trace == old(transport.trace) + ev && AllLegit(transport.trace) && OnlyReads(ev)
    ensures r.Success? ==>
      && Scanning(inc, seeds, r.value.0, visited, visited - {key}, r.value.1)
      && Evidence(past + ev, r.value.0)
      && Tracked(r.value.0, visited, r.value.1, name)
      && (forall n :: Tracked(state, visited, pending, n) ==> Tracked(r.value.0, visited, r.value.1, n))
      && (Root in state ==> Root in r.value.0 && r.value.0[Root] == state[Root])
  {
    hide Scanning, Tracked, Evidence, AllLegit;
    ev := [];
    var bigger := state;
    if name !in state {
      var one;
      one, ev := transport.ReadFile(name);
      if one.Failure? {
        return Failure(one.error), ev;
      }
      bigger := state[name := one.value];
      EvidenceStep(past, state, ev, name, one.value);
    } else {
      assert past + [] == past;
    }
    IncludeStep(inc, seeds, state, bigger, visited, visited - {key}, pending, key, name);
    r := Success((bigger, pending + [(name, bigger[name])]));
  }

  lemma NameIncluded(inc: Includes, key: Source, names: seq<Name>, i: nat)
    requires i < |names| && inc(key.1, key.0) == Some(names)
    ensures IncludesName(inc, key, names[i])
  {
  }

  /** Follows every include of one text. */
  method ScanText(transport: ConfigTransport, inc: Includes, ghost seeds: set<Source>, key: Source, names: seq<Name>,
                  state: Contents, ghost visited: set<Source>, pending: Pending, ghost past: Trace)
    returns (r: Result<(Contents, Pending), Exn>, ghost ev: Trace)
    requires AllLegit(transport.trace)
    requires key in visited && inc(key.1, key.0) == Some(names)
    requires Scanning(inc, seeds, state, visited, visited - {key}, pending) && Evidence(past, state)
    modifies transport
    ensures transport.trace == old(transport.trace) + ev && AllLegit(transport.trace) && OnlyReads(ev)
    ensures r.Success? ==>
      && Scanning(inc, seeds, r.value.0, visited, visited, r.value.1)
      && Evidence(past + ev, r.value.0)
      && (Root in state ==> Root in r.value.0 && r.value.0[Root] == state[Root])
  {
    hide Scanning, AllLegit, OnlyReads, Evidence, Tracked, IncludesName;
    ev := [];
    Nothing();
    assert past + [] == past;
    var bigger, queue := state, pending;
    for i := 0 to |names|
      invariant transport.trace == old(transport.trace) + ev && AllLegit(transport.trace) && OnlyReads(ev)
      invariant Scanning(inc, seeds, bigger, visited, visited - {key}, queue) && Evidence(past + ev, bigger)
      invariant forall j :: 0 <= j < i ==> Tracked(bigger, visited, queue, names[j])
      invariant Root in state ==> Root in bigger && bigger[Root] == state[Root]
    {
      var step;
      ghost var more;
      NameIncluded(inc, key, names, i);
      step, more := ReadIncluded(transport, inc, seeds, key, names[i], bigger, visited, queue, past + ev);
      Joined(ev, more);
      assert past + ev + more == past + (ev + more);
      ev := ev + more;
      if step.Failure? {
        return Failure(step.error), ev;
      }
      bigger, queue := step.value.0, step.value.1;
    }
    FinishScan(inc, seeds, bigger, visited, queue, key, names);
    r := Success((bigger, queue));
  }

  /** Scans one more text, within the limits of the review. */
  method VisitText(transport: ConfigTransport, inc: Includes, ghost seeds: set<Source>, key: Source, total: nat,
                   state: Contents, ghost visited: set<Source>, pending: Pending, ghost past: Trace)
    returns (r: Result<(Contents, Pending), Exn>, ghost ev: Trace)
    requires AllLegit(transport.trace) && key !in visited
    requires Scanning(inc, seeds, state, visited + {key}, visited, pending) && Evidence(past, state)
    modifies transport
    ensures transport.trace == old(transport.trace) + ev && AllLegit(transport.trace) && OnlyReads(ev)
    ensures r.Success? ==>
      && Scanning(inc, seeds, r.value.0, visited + {key}, visited + {key}, r.value.1)
      && Evidence(past + ev, r.value.0) && |visited + {key}| <= |seeds| + MAX_FILES
      && |state| <= 256 && total <= 8388608
      && inc(key.1, key.0).Some?
      && (Root in state ==> Root in r.value.0 && r.value.0[Root] == state[Root])
  {
    hide Scanning, AllLegit, OnlyReads, Evidence;
    Nothing();
    if |state| > MAX_FILES || total > MAX_BYTES {
      return Failure(OtherFailure), [];
    }
    KeyIsNew(visited, key);
    VisitedBound(inc, seeds, state, visited + {key}, visited, pending);
    var names := inc(key.1, key.0);
    if names.None? {
      return Failure(OtherFailure), [];
    }
    r, ev := ScanText(transport, inc, seeds, key, names.value, state, visited + {key}, pending, past);
  }

  /** The worklist: pending texts are scanned until none is left. */
  method Collect(transport: ConfigTransport, inc: Includes, ghost seeds: set<Source>, start: Contents, queue: Pending,
                 ghost past: Trace)
    returns (r: Result<Contents, Exn>, ghost ev: Trace)
    requires AllLegit(transport.trace) && |seeds| <= 3 && Root in start
    requires Scanning(inc, seeds, start, {}, {}, queue) && Evidence(past, start)
    modifies transport
    ensures transport.trace == old(transport.trace) + ev && AllLegit(transport.trace) && OnlyReads(ev)
    ensures r.Success? ==> Root in r.value && r.value[Root] == start[Root] && Evidence(past + ev, r.value)
    ensures r.Success? ==> CompleteBaseline(inc, seeds, r.value) && Readable(inc, seeds)
  {
    hide Scanning, AllLegit, OnlyReads, Evidence, CompleteBaseline, Readable;
    ev := [];
    Nothing();
    assert past + [] == past;
    var state, pending := start, queue;
    var visited: set<Source> := {};
    ReadableOf(inc, visited, {});
    var total: nat := 0;
    while pending != []
      invariant transport.trace == old(transport.trace) + ev && AllLegit(transport.trace) && OnlyReads(ev)
      invariant Scanning(inc, seeds, state, visited, visited, pending) && Evidence(past + ev, state)
      invariant Root in state && state[Root] == start[Root]
      invariant |visited| <= 3 + MAX_FILES && Readable(inc, visited)
      decreases 4 + MAX_FILES - |visited|, |pending|
    {
      var (source, content) := pending[|pending| - 1];
      if content.None? || (source, content.value) in visited {
        SkipStep(inc, seeds, state, visited, pending);
        pending := pending[..|pending| - 1];
        continue;
      }
      var key := (source, content.value);
      ScanStep(inc, seeds, state, visited, pending, key);
      KeyIsNew(visited, key);
      total := total + |content.value|;
      var step;
      ghost var more;
      step, more := VisitText(transport, inc, seeds, key, total, state, visited, pending[..|pending| - 1], past + ev);
      Joined(ev, more);
      assert past + ev + more == past + (ev + more);
      ev := ev + more;
      if step.Failure? {
        return Failure(step.error), ev;
      }
      ReadableFurther(inc, visited, key);
      visited := visited + {key};
      state, pending := step.value.0, step.value.1;
    }
    WorklistDone(inc, seeds, state, visited);
    ReadableOf(inc, visited, seeds);
    r := Success(state);
  }

  /** `read_config_state`. */
  method ReadConfigState(transport: ConfigTransport, inc: Includes, hardware: Bytes, macros: Option<Bytes>)
    returns (r: Result<Contents, Exn>, ghost ev: Trace)
    requires AllLegit(transport.trace)
    modifies transport
    ensures transport.trace == old(transport.trace) + ev && AllLegit(transport.trace) && OnlyReads(ev)
    ensures r.Success? ==> CANDIDATES <= r.value.Keys && Evidence(ev, r.value)
    ensures r.Success? ==> CompleteBaseline(inc, Seeds(hardware, macros, r.value[Root]), r.value)
    ensures r.Success? ==> Readable(inc, Seeds(hardware, macros, r.value[Root]))
  {
    hide Scanning, AllLegit, OnlyReads, Evidence, Seeds, Readable, Reachable;
    var first;
    first, ev := transport.ReadFiles(CANDIDATES);
    if first.Failure? {
      return Failure(first.error), ev;
    }
    var state := first.value;
    ghost var seeds := Seeds(hardware, macros, state[Root]);
    SeedsBound(hardware, macros, state[Root]);
    StartScan(inc, hardware, macros, state);
    ghost var more, past := [], ev;
    r, more := Collect(transport, inc, seeds, state, [(Root, Some(hardware)), (Macros, macros), (Root, state[Root])], past);
    Joined(past, more);
    ev := past + more;
  }

  lemma ReadableFurther(inc: Includes, visited: set<Source>, key: Source)
    requires Readable(inc, visited) && inc(key.1, key.0).Some?
    ensures Readable(inc, visited + {key})
  {
  }

  lemma ReadableOf(inc: Includes, visited: set<Source>, sources: set<Source>)
    requires visited == {} || Readable(inc, visited)
    requires sources <= visited
    ensures Readable(inc, sources)
  {
  }

  lemma KeyIsNew(visited: set<Source>, key: Source)
    requires key !in visited
    ensures visited + {key} - {key} == visited && |visited + {key}| == |visited| + 1
  {
  }

  lemma StartScan(inc: Includes, hardware: Bytes, macros: Option<Bytes>, state: Contents)
    requires state.Keys == CANDIDATES
    ensures Scanning(inc, Seeds(hardware, macros, state[Root]), state, {}, {},
                     [(Root, Some(hardware)), (Macros, macros), (Root, state[Root])])
  {
    var pending: Pending := [(Root, Some(hardware)), (Macros, macros), (Root, state[Root])];
    assert pending[0] in pending && pending[1] in pending && pending[2] in pending;
  }

  lemma FinishScan(inc: Includes, seeds: set<Source>, state: Contents, visited: set<Source>, pending: Pending,
                   key: Source, names: seq<Name>)
    requires Scanning(inc, seeds, state, visited, visited - {key}, pending)
    requires inc(key.1, key.0) == Some(names)
    requires forall j :: 0 <= j < |names| ==> Tracked(state, visited, pending, names[j])
    ensures Scanning(inc, seeds, state, visited, visited, pending)
  {
    forall s, n | s in visited && IncludesName(inc, s, n) ensures Tracked(state, visited, pending, n) {
      if s == key {
        var j :| 0 <= j < |names| && names[j] == n;
      }
    }
  }

  lemma VisitedBound(inc: Includes, seeds: set<Source>, state: Contents, visited: set<Source>,
                     complete: set<Source>, pending: Pending)
    requires Scanning(inc, seeds, state, visited, complete, pending)
    ensures |visited| <= |seeds| + |state|
  {
    ScannedBound(state, seeds, visited);
  }
}

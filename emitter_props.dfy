/**
 * What event.emitter.js promises: `trigger` over user callbacks, the
 * first-match `unbind`, and `assign`, whose listeners are never removed
 * and which calls back on every trigger once every listed event has
 * fired, with the latest first argument of each.
 */
module EmitterProps {
  import opened Common
  import opened Slots
  import opened EmitterModel

  // ---------------------------------------------------------------------
  // trigger over user callbacks
  // ---------------------------------------------------------------------

  predicate UserList(s: ListenerList) {
    forall i :: 0 <= i < |s| && s[i].Some? ==> s[i].value.User?
  }

  /** The user calls made by calling every live slot of `s` with `args`, in slot order. */
  function Calls(s: ListenerList, args: seq<Value>): seq<Call> {
    if s == [] then []
    else (if s[0].Some? && s[0].value.User? then [Call(s[0].value.id, args)] else []) + Calls(s[1..], args)
  }

  /** The list a pass leaves: the null slots spliced out, every listener kept in order. */
  function Compact(s: ListenerList): ListenerList {
    if s == [] then [] else (if s[0].Some? then [s[0]] else []) + Compact(s[1..])
  }

  /** Compacting keeps exactly the live listeners, in order, and leaves no null slot. */
  lemma {:induction false} CompactLive(s: ListenerList)
    ensures Live(Compact(s)) == Live(s) && None !in Compact(s)
  {
    if s != [] {
      CompactLive(s[1..]);
      var h: ListenerList := if s[0].Some? then [s[0]] else [];
      LiveAppend(h, Compact(s[1..]));
      assert Live(h) == (if s[0].Some? then [s[0].value] else []) by {
        if s[0].Some? { assert h[1..] == []; }
      }
    }
  }

  /** A compacted list makes the same calls and compacts to itself. */
  lemma {:induction false} CompactCalls(s: ListenerList, args: seq<Value>)
    ensures Calls(Compact(s), args) == Calls(s, args) && Compact(Compact(s)) == Compact(s)
  {
    if s != [] {
      CompactCalls(s[1..], args);
      var c := Compact(s);
      if s[0].Some? {
        assert c == [s[0]] + Compact(s[1..]);
        assert c[0] == s[0] && c[1..] == Compact(s[1..]);
        assert Compact(c) == [c[0]] + Compact(c[1..]);
        assert Calls(c, args) == (if s[0].value.User? then [Call(s[0].value.id, args)] else []) + Calls(c[1..], args);
      } else {
        assert c == Compact(s[1..]);
      }
    }
  }

  /** Compacting a list of user callbacks leaves user callbacks only. */
  lemma {:induction false} CompactUsers(s: ListenerList)
    requires UserList(s)
    ensures UserList(Compact(s))
  {
    if s != [] {
      assert UserList(s[1..]) by {
        forall i | 0 <= i < |s[1..]| && s[1..][i].Some? ensures s[1..][i].value.User? { assert s[1..][i] == s[i + 1]; }
      }
      CompactUsers(s[1..]);
      var c := Compact(s);
      if s[0].Some? {
        assert c == [s[0]] + Compact(s[1..]);
        forall i | 0 <= i < |c| && c[i].Some? ensures c[i].value.User? {
          if i > 0 { assert c[i] == Compact(s[1..])[i - 1]; }
        }
      }
    }
  }

  lemma UserTail(s: ListenerList)
    requires s != [] && UserList(s)
    ensures UserList(s[1..])
  {
    forall j | 0 <= j < |s[1..]| && s[1..][j].Some? ensures s[1..][j].value.User? { assert s[1..][j] == s[j + 1]; }
  }

  /** One step of the pass at a null slot: it is spliced out and the bound drops. */
  lemma StepNull(st: State, k: Key, args: seq<Value>, p: ListenerList, s: ListenerList)
    requires st.callbacks.Some? && k in st.callbacks.value && st.callbacks.value[k] == p + s && s != [] && s[0].None?
    ensures Pass(st, k, args, |p|, |p| + |s|) == Pass(SetList(st, k, p + s[1..]), k, args, |p|, |p| + |s| - 1)
  {
    assert (p + s)[|p|] == s[0];
    assert Splice(p + s, |p|) == p + s[1..];
  }

  /** One step of the pass at a user callback: it is called. */
  lemma StepUser(st: State, k: Key, args: seq<Value>, p: ListenerList, s: ListenerList)
    requires st.callbacks.Some? && k in st.callbacks.value && st.callbacks.value[k] == p + s && s != [] && s[0].Some? && s[0].value.User?
    ensures Pass(st, k, args, |p|, |p| + |s|) == Pass(Log(st, s[0].value.id, args), k, args, |p| + 1, |p| + |s|)
  {
    assert (p + s)[|p|] == s[0];
  }

  /** The pass over user callbacks from slot `|p|` on: each called in turn, the null slots spliced out. */
  lemma {:induction false} PassUsers(st: State, k: Key, args: seq<Value>, p: ListenerList, s: ListenerList)
    requires st.callbacks.Some? && k in st.callbacks.value && st.callbacks.value[k] == p + s
    requires UserList(s)
    ensures Pass(st, k, args, |p|, |p| + |s|) == SetList(st, k, p + Compact(s)).(log := st.log + Calls(s, args))
    decreases |s|
  {
    if s == [] {
      assert p + s == p;
      assert st.callbacks.value[k := p] == st.callbacks.value;
    } else {
      UserTail(s);
      if s[0].None? {
        StepNull(st, k, args, p, s);
        PassUsersNull(st, k, args, p, s);
      } else {
        StepUser(st, k, args, p, s);
        PassUsersUser(st, k, args, p, s);
      }
    }
  }

  lemma {:induction false} PassUsersNull(st: State, k: Key, args: seq<Value>, p: ListenerList, s: ListenerList)
    requires st.callbacks.Some? && k in st.callbacks.value && st.callbacks.value[k] == p + s
    requires s != [] && s[0].None? && UserList(s[1..])
    ensures Pass(SetList(st, k, p + s[1..]), k, args, |p|, |p| + |s[1..]|) == SetList(st, k, p + Compact(s)).(log := st.log + Calls(s, args))
    decreases |s|, 0
  {
    PassUsers(SetList(st, k, p + s[1..]), k, args, p, s[1..]);
    NullHead(s, args);
    SetListTwice(st, k, p + s[1..], p + Compact(s));
  }

  /** A null slot at the head of `s`: dropped by compacting, calls nothing. */
  lemma NullHead(s: ListenerList, args: seq<Value>)
    requires s != [] && s[0].None?
    ensures Compact(s) == Compact(s[1..]) && Calls(s, args) == Calls(s[1..], args)
  {
  }

  /** Setting a list twice keeps the second. */
  lemma SetListTwice(st: State, k: Key, x: ListenerList, y: ListenerList)
    requires st.callbacks.Some?
    ensures SetList(SetList(st, k, x), k, y) == SetList(st, k, y)
  {
    assert st.callbacks.value[k := x][k := y] == st.callbacks.value[k := y];
  }

  lemma {:induction false} PassUsersUser(st: State, k: Key, args: seq<Value>, p: ListenerList, s: ListenerList)
    requires st.callbacks.Some? && k in st.callbacks.value && st.callbacks.value[k] == p + s
    requires s != [] && s[0].Some? && s[0].value.User? && UserList(s[1..])
    ensures Pass(Log(st, s[0].value.id, args), k, args, |p| + 1, |p| + |s|) == SetList(st, k, p + Compact(s)).(log := st.log + Calls(s, args))
    decreases |s|, 0
  {
    var id := s[0].value.id;
    assert p + s == (p + [s[0]]) + s[1..];
    PassUsers(Log(st, id, args), k, args, p + [s[0]], s[1..]);
    UserHead(p, s, args);
    LogSetList(st, k, p + Compact(s), id, args, Calls(s[1..], args));
  }

  /** A user callback at the head of `s`: kept by compacting, called first. */
  lemma UserHead(p: ListenerList, s: ListenerList, args: seq<Value>)
    requires s != [] && s[0].Some? && s[0].value.User?
    ensures (p + [s[0]]) + Compact(s[1..]) == p + Compact(s)
    ensures Calls(s, args) == [Call(s[0].value.id, args)] + Calls(s[1..], args)
  {
    assert Compact(s) == [s[0]] + Compact(s[1..]);
    assert (p + [s[0]]) + Compact(s[1..]) == p + ([s[0]] + Compact(s[1..]));
  }

  /** Logging a call, then setting a list and appending more calls, is setting the list and appending all the calls. */
  lemma LogSetList(st: State, k: Key, x: ListenerList, id: nat, args: seq<Value>, rest: seq<Call>)
    requires st.callbacks.Some?
    ensures var st1 := Log(st, id, args);
      SetList(st1, k, x).(log := st1.log + rest) == SetList(st, k, x).(log := st.log + ([Call(id, args)] + rest))
  {
    assert st.log + [Call(id, args)] + rest == st.log + ([Call(id, args)] + rest);
  }

  /** One key's pass over user callbacks, as a change of that list and of the log alone. */
  lemma PassKeyUsers(st: State, k: Key, args: seq<Value>)
    requires st.callbacks.Some? && UserList(ListOf(st, k))
    ensures var r := PassKey(st, k, args);
      && r == st.(callbacks := r.callbacks, log := r.log)
      && Bound(r) == Bound(st)
      && ListOf(r, k) == Compact(ListOf(st, k))
      && (forall k' :: k' != k ==> ListOf(r, k') == ListOf(st, k'))
      && r.log == st.log + Calls(ListOf(st, k), args)
  {
    if k in st.callbacks.value {
      assert st.callbacks.value[k] == [] + ListOf(st, k);
      PassUsers(st, k, args, [], ListOf(st, k));
      assert [] + Compact(ListOf(st, k)) == Compact(ListOf(st, k));
    }
  }

  /**
   * `trigger(name, args...)` over user callbacks: those of the name get
   * `args` in list order, then those of 'all' get the name first; both
   * arrays lose their null slots and nothing else changes.
   */
  lemma TriggerUsers(st: State, name: string, args: seq<Value>)
    requires st.callbacks.Some? && name != "all"
    requires UserList(ListOf(st, Ev(name))) && UserList(ListOf(st, Wildcard))
    ensures var r := Trigger(st, name, args);
      && r == st.(callbacks := r.callbacks, log := r.log)
      && Bound(r) == Bound(st)
      && ListOf(r, Ev(name)) == Compact(ListOf(st, Ev(name)))
      && ListOf(r, Wildcard) == Compact(ListOf(st, Wildcard))
      && (forall k :: k != Ev(name) && k != Wildcard ==> ListOf(r, k) == ListOf(st, k))
      && r.log == st.log + Calls(ListOf(st, Ev(name)), args) + Calls(ListOf(st, Wildcard), [Str(name)] + args)
  {
    PassKeyUsers(st, Ev(name), args);
    PassKeyUsers(PassKey(st, Ev(name), args), Wildcard, [Str(name)] + args);
  }

  /** `trigger('all', args...)`: the array of 'all' is passed twice, so its callbacks are called twice. */
  lemma TriggerAllTwice(st: State, args: seq<Value>)
    requires st.callbacks.Some? && UserList(ListOf(st, Wildcard))
    ensures var r := Trigger(st, "all", args);
      && ListOf(r, Wildcard) == Compact(ListOf(st, Wildcard))
      && (forall k :: k != Wildcard ==> ListOf(r, k) == ListOf(st, k))
      && r.log == st.log + Calls(ListOf(st, Wildcard), args) + Calls(ListOf(st, Wildcard), [Str("all")] + args)
  {
    var s := ListOf(st, Wildcard);
    PassKeyUsers(st, Wildcard, args);
    CompactUsers(s);
    CompactCalls(s, [Str("all")] + args);
    PassKeyUsers(PassKey(st, Wildcard, args), Wildcard, [Str("all")] + args);
  }

  /**
   * `unbind(ev, callback)` nulls the first slot holding the callback only:
   * with `n` bindings before, `n - 1` remain (none when there were none),
   * and nothing else bound changes.
   */
  lemma UnbindFirstOnly(st: State, ev: Arg, l: Listener)
    requires ev != Name("")
    ensures var r := Unbind(st, Some(ev), Some(l));
      && Count(ListOf(r, ArgKey(ev)), l) == (if Count(ListOf(st, ArgKey(ev)), l) > 0 then Count(ListOf(st, ArgKey(ev)), l) - 1 else 0)
      && (forall k :: k != ArgKey(ev) ==> ListOf(r, k) == ListOf(st, k))
  {
    NullFirstCount(ListOf(st, ArgKey(ev)), l);
  }

  // ---------------------------------------------------------------------
  // assign over a sequence of triggers
  // ---------------------------------------------------------------------

  /** The callback's arguments: the first argument of the latest firing of each listed event, in listed order. */
  function Latest(events: seq<string>, t: seq<Firing>): (data: seq<Value>)
    requires Covered(events, t)
    ensures |data| == |events|
  {
    seq(|events|, i requires 0 <= i < |events| => Head(LastArgs(t, events[i])))
  }

  /**
   * The calls of `assign`'s callback: one on every trigger once every
   * listed event has fired, two on a trigger of 'all' itself (whose array
   * is passed twice).
   */
  function WatchLog(events: seq<string>, cb: nat, t: seq<Firing>): seq<Call> {
    if t == [] then []
    else
      var n := |t| - 1;
      WatchLog(events, cb, t[..n])
      + if Covered(events, t) then (if t[n].name == "all" then [Call(cb, Latest(events, t)), Call(cb, Latest(events, t))] else [Call(cb, Latest(events, t))])
        else []
  }

  /** `_deps` of the `assign` call after the firings `t`: the latest first argument of each listed event fired. */
  ghost predicate Deps(deps: map<Key, Value>, events: seq<string>, t: seq<Firing>) {
    forall e :: e in events ==>
      (Ev(e) in deps ==> e in NamesFired(t)) && (e in NamesFired(t) ==> Ev(e) in deps && deps[Ev(e)] == Head(LastArgs(t, e)))
  }

  /** The proxy after `assign(events..., cb)` on a fresh proxy and the firings `t`. */
  ghost predicate AssignInv(st: State, events: seq<string>, cb: nat, t: seq<Firing>) {
    && Wired(st, events, cb)
    && Deps(st.assigns[0].deps, events, t)
    && st.log == WatchLog(events, cb, t)
  }

  /** The listeners `assign(events..., cb)` bound, which stay bound for good. */
  ghost predicate Wired(st: State, events: seq<string>, cb: nat) {
    && st.callbacks.Some?
    && (forall x :: Ev(x) in st.callbacks.value <==> x in events)
    && (forall e :: e in events ==> ListOf(st, Ev(e)) == [Some(Record(0, Name(e)))])
    && Wildcard in st.callbacks.value && ListOf(st, Wildcard) == [Some(Watch(0))]
    && 0 in st.assigns && st.assigns[0].events == Names(events) && st.assigns[0].callback == cb
  }

  /** The binding loop pushes one record listener onto the array of each listed event from `i` on. */
  lemma {:induction false} BindRecordsEffect(st: State, events: seq<string>, i: nat)
    requires i <= |events| && Distinct(events[i..]) && "all" !in events
    ensures var r := BindRecords(st, 0, Names(events), i);
      && r == st.(callbacks := r.callbacks)
      && (i < |events| ==> r.callbacks.Some?)
      && (forall k: Key :: k in Bound(r) <==> k in Bound(st) || (k.Ev? && k.name in events[i..]))
      && (forall x :: ListOf(r, Ev(x)) == ListOf(st, Ev(x)) + (if x in events[i..] then [Some(Record(0, Name(x)))] else []))
      && (forall k: Key :: !k.Ev? ==> ListOf(r, k) == ListOf(st, k))
    decreases |events| - i
  {
    if i < |events| {
      var e := events[i];
      assert Names(events)[i] == Name(e) && ArgKey(Name(e)) == NameKey(e);
      var st1 := Bind(st, Name(e), Record(0, Name(e)));
      var s := events[i..];
      assert s[1..] == events[i + 1..];
      DistinctTail(s);
      BindRecordsEffect(st1, events, i + 1);
      assert forall x :: x in s <==> x == e || x in s[1..];
    }
  }

  /** `assign(events..., cb)` on a fresh proxy: the callback split off, the binding loop, then the watcher. */
  lemma AssignUnfold(events: seq<string>, cb: nat)
    ensures Assign(Empty(), Names(events) + [Fn(cb)])
         == Bind(BindRecords(Opened(Empty(), Names(events), cb), 0, Names(events), 0), Name("all"), Watch(0))
  {
    var args := Names(events) + [Fn(cb)];
    assert args[..|args| - 1] == Names(events);
  }

  /** The binding loop of `assign` on a fresh proxy: one record listener per listed event, nothing on 'all'. */
  lemma AssignRecords(events: seq<string>, cb: nat)
    requires Distinct(events) && "all" !in events
    ensures var b := BindRecords(Opened(Empty(), Names(events), cb), 0, Names(events), 0);
      && (forall x :: Ev(x) in Bound(b) <==> x in events) && Wildcard !in Bound(b)
      && (forall e :: e in events ==> ListOf(b, Ev(e)) == [Some(Record(0, Name(e)))])
      && ListOf(b, Wildcard) == []
      && 0 in b.assigns && b.assigns[0] == AssignState(Names(events), cb, map[]) && b.log == []
  {
    assert events[0..] == events;
    BindRecordsEffect(Opened(Empty(), Names(events), cb), events, 0);
  }

  /** `assign(events..., cb)` on a fresh proxy: one record listener per listed event, the watcher on 'all'. */
  lemma AssignSetup(events: seq<string>, cb: nat)
    requires Distinct(events) && "all" !in events
    ensures AssignInv(Assign(Empty(), Names(events) + [Fn(cb)]), events, cb, [])
  {
    AssignUnfold(events, cb);
    AssignRecords(events, cb);
    var b := BindRecords(Opened(Empty(), Names(events), cb), 0, Names(events), 0);
    assert ArgKey(Name("all")) == Wildcard;
    var r := Bind(b, Name("all"), Watch(0));
    assert forall x :: Ev(x) in r.callbacks.value <==> Ev(x) in Bound(r);
  }

  /** A pass over an array of one listener: one call of it, the array unchanged. */
  lemma PassSingle(st: State, k: Key, l: Listener, args: seq<Value>)
    requires st.callbacks.Some? && k in st.callbacks.value && ListOf(st, k) == [Some(l)]
    ensures PassKey(st, k, args) == Invoke(st, l, args)
  {
    assert Pass(st, k, args, 0, 1) == Pass(Invoke(st, l, args), k, args, 1, 1);
  }

  /** The readiness loop over `_deps` after the firings `t`: it completes exactly when every listed event fired. */
  lemma ReadyLatest(deps: map<Key, Value>, events: seq<string>, t: seq<Firing>)
    requires Deps(deps, events, t) && "all" !in events
    ensures Ready(deps, Names(events)) == if Covered(events, t) then Some(Latest(events, t)) else None
  {
    var ns := Names(events);
    forall i | 0 <= i < |events| ensures ArgKey(ns[i]) == Ev(events[i]) {
      assert events[i] in events;
    }
    if Covered(events, t) {
      forall i | 0 <= i < |events| ensures ArgKey(ns[i]) in deps {
        assert events[i] in events;
      }
      var d := Ready(deps, ns).value;
      forall i | 0 <= i < |events| ensures d[i] == Latest(events, t)[i] {
        assert events[i] in events;
      }
      assert d == Latest(events, t);
    } else {
      var e :| e in events && e !in NamesFired(t);
      var i :| 0 <= i < |events| && events[i] == e;
      assert ArgKey(ns[i]) !in deps;
    }
  }

  /** `_deps` after one more firing: updated for a listed event, unchanged otherwise. */
  lemma DepsStep(deps: map<Key, Value>, events: seq<string>, t: seq<Firing>, f: Firing)
    requires Deps(deps, events, t)
    ensures f.name in events ==> Deps(deps[Ev(f.name) := Head(f.args)], events, t + [f])
    ensures f.name !in events ==> Deps(deps, events, t + [f])
  {
    NamesFiredSnoc(t, f);
    forall e | e in events && e in NamesFired(t + [f]) ensures LastArgs(t + [f], e) == if f.name == e then f.args else LastArgs(t, e) {
      LastArgsSnoc(t, f, e);
    }
  }

  /** The watcher on 'all': it calls back with the latest data once the round is covered. */
  lemma WatchStep(st: State, events: seq<string>, cb: nat, t: seq<Firing>)
    requires 0 in st.assigns && st.assigns[0].events == Names(events) && st.assigns[0].callback == cb
    requires Deps(st.assigns[0].deps, events, t) && "all" !in events
    ensures WatchAll(st, 0) == if Covered(events, t) then Log(st, cb, Latest(events, t)) else st
  {
    ReadyLatest(st.assigns[0].deps, events, t);
  }

  /** The calls of the callback grow by those of the last firing. */
  lemma WatchLogSnoc(events: seq<string>, cb: nat, t: seq<Firing>, f: Firing)
    ensures WatchLog(events, cb, t + [f]) == WatchLog(events, cb, t)
      + if Covered(events, t + [f]) then (if f.name == "all" then [Call(cb, Latest(events, t + [f])), Call(cb, Latest(events, t + [f]))] else [Call(cb, Latest(events, t + [f]))])
        else []
  {
    assert (t + [f])[..|t|] == t;
  }

  /** The record listener of a listed event: it stores the first argument and leaves the listeners as they were. */
  lemma RecordStep(st: State, events: seq<string>, cb: nat, t: seq<Firing>, f: Firing)
    requires Wired(st, events, cb) && Deps(st.assigns[0].deps, events, t) && f.name in events && "all" !in events
    ensures var st1 := PassKey(st, Ev(f.name), f.args);
      && Wired(st1, events, cb) && Deps(st1.assigns[0].deps, events, t + [f]) && st1.log == st.log
  {
    var e := f.name;
    PassSingle(st, Ev(e), Record(0, Name(e)), f.args);
    assert ArgKey(Name(e)) == Ev(e);
    DepsStep(st.assigns[0].deps, events, t, f);
  }

  /** The watcher after a trigger: the listeners as they were, one callback call once the round is covered. */
  lemma WatchPass(st: State, events: seq<string>, cb: nat, t: seq<Firing>, args: seq<Value>)
    requires Wired(st, events, cb) && Deps(st.assigns[0].deps, events, t) && "all" !in events
    ensures var r := PassKey(st, Wildcard, args);
      && Wired(r, events, cb) && r.assigns == st.assigns
      && r.log == st.log + if Covered(events, t) then [Call(cb, Latest(events, t))] else []
  {
    PassSingle(st, Wildcard, Watch(0), args);
    WatchStep(st, events, cb, t);
  }

  /** A trigger of a listed event: its record listener stores the first argument, then the watcher runs. */
  lemma ListedStep(st: State, events: seq<string>, cb: nat, t: seq<Firing>, f: Firing)
    requires Distinct(events) && "all" !in events && AssignInv(st, events, cb, t) && f.name in events
    ensures AssignInv(Trigger(st, f.name, f.args), events, cb, t + [f])
  {
    var e := f.name;
    assert NameKey(e) == Ev(e);
    RecordStep(st, events, cb, t, f);
    var st1 := PassKey(st, Ev(e), f.args);
    WatchPass(st1, events, cb, t + [f], [Str(e)] + f.args);
    WatchLogSnoc(events, cb, t, f);
  }

  /** A trigger of 'all': the watcher runs twice and nothing is stored. */
  lemma AllStep(st: State, events: seq<string>, cb: nat, t: seq<Firing>, f: Firing)
    requires "all" !in events && AssignInv(st, events, cb, t) && f.name == "all"
    ensures AssignInv(Trigger(st, f.name, f.args), events, cb, t + [f])
  {
    DepsStep(st.assigns[0].deps, events, t, f);
    WatchPass(st, events, cb, t + [f], f.args);
    WatchPass(PassKey(st, Wildcard, f.args), events, cb, t + [f], [Str("all")] + f.args);
    WatchLogSnoc(events, cb, t, f);
  }

  /** A trigger of any other name: only the watcher runs. */
  lemma OtherStep(st: State, events: seq<string>, cb: nat, t: seq<Firing>, f: Firing)
    requires "all" !in events && AssignInv(st, events, cb, t) && f.name !in events && f.name != "all"
    ensures AssignInv(Trigger(st, f.name, f.args), events, cb, t + [f])
  {
    DepsStep(st.assigns[0].deps, events, t, f);
    assert NameKey(f.name) !in st.callbacks.value;
    WatchPass(st, events, cb, t + [f], [Str(f.name)] + f.args);
    WatchLogSnoc(events, cb, t, f);
  }


  lemma {:induction false} AssignRun(st0: State, events: seq<string>, cb: nat, t: seq<Firing>)
    requires Distinct(events) && "all" !in events && AssignInv(st0, events, cb, [])
    ensures AssignInv(Run(st0, t), events, cb, t)
  {
    if t != [] {
      var t0, f := t[..|t| - 1], t[|t| - 1];
      assert t0 + [f] == t;
      AssignRun(st0, events, cb, t0);
      var prev := Run(st0, t0);
      if f.name in events {
        ListedStep(prev, events, cb, t0, f);
      } else if f.name == "all" {
        AllStep(prev, events, cb, t0, f);
      } else {
        OtherStep(prev, events, cb, t0, f);
      }
      assert Run(st0, t) == Trigger(prev, f.name, f.args);
    }
  }

  /**
   * `assign(events..., cb)` on a fresh proxy, then any firings: `cb` is
   * called on every trigger once each listed event has fired, with the
   * latest first argument of each in listed order; twice on a trigger of
   * 'all'.
   */
  lemma AssignFiresOnEveryTrigger(events: seq<string>, cb: nat, t: seq<Firing>)
    requires Distinct(events) && "all" !in events
    ensures Run(Assign(Empty(), Names(events) + [Fn(cb)]), t).log == WatchLog(events, cb, t)
  {
    AssignSetup(events, cb);
    AssignRun(Assign(Empty(), Names(events) + [Fn(cb)]), events, cb, t);
  }

  /**
   * The watcher is never unbound: once every listed event has fired, a
   * trigger of ANY name, listed or not, calls back again with the latest
   * data.
   */
  lemma KeepsFiring(events: seq<string>, cb: nat, t: seq<Firing>, f: Firing)
    requires Distinct(events) && "all" !in events && Covered(events, t)
    ensures Covered(events, t + [f])
    ensures var st := Assign(Empty(), Names(events) + [Fn(cb)]);
      var c := Call(cb, Latest(events, t + [f]));
      Run(st, t + [f]).log == Run(st, t).log + [c] + (if f.name == "all" then [c] else [])
  {
    AssignFiresOnEveryTrigger(events, cb, t);
    AssignFiresOnEveryTrigger(events, cb, t + [f]);
    NamesFiredSnoc(t, f);
    WatchLogSnoc(events, cb, t, f);
  }
}

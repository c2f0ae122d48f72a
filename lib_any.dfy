/**
 * `any` and `not` of lib/eventproxy.js on a fresh proxy. `any(events..., cb)`
 * binds `cb` once on a synthetic key and a forwarder on every listed event;
 * `cb` runs once, at the first firing of a listed event, with that event's
 * payload and name. `not(e, cb)` hands `cb` the payload of every other event.
 *
 * The synthetic key of the source is `events.join('_')`, an ordinary event
 * name; `AnyAsWritten` models that, and `AnyAsWrittenLoops` shows the
 * unbounded re-triggering it causes when the name equals a listed event.
 * `Any` binds `cb` on a key no caller can fire.
 */
module LibAny {
  import opened Common
  import opened Slots
  import opened LibModel
  import opened LibDispatch

  // ---------------------------------------------------------------------
  // any
  // ---------------------------------------------------------------------

  /** The first firing in `t` of a listed event, if there is one. */
  function FirstListed(events: seq<string>, t: seq<Firing>): (r: Option<Firing>)
    ensures r.Some? ==> r.value in t && r.value.name in events
    ensures r.None? <==> forall i :: 0 <= i < |t| ==> t[i].name !in events
  {
    if t == [] then None
    else
      var n := |t| - 1;
      var p := FirstListed(events, t[..n]);
      if p.Some? then p
      else if t[n].name in events then Some(t[n])
      else None
  }

  /** The forwarder `any` binds on listed event `x`. */
  function Forwarder(events: seq<string>, x: string): Listener {
    Forward(events, x, AnyOf(events))
  }

  /** After binding forwarders on the first `i` listed events. */
  ghost predicate Forwarding(st: State, events: seq<string>, i: nat) {
    && Valid(st) && Wildcard !in st.callbacks && AnyOf(events) in st.callbacks && i <= |events|
    && (forall x :: Ev(x) in st.callbacks <==> x in events[..i])
    && (forall j :: 0 <= j < i ==> ListOf(st, Ev(events[j])) == [Some(Forwarder(events, events[j]))])
  }

  lemma ForwardStep(st: State, events: seq<string>, i: nat)
    requires Distinct(events) && Forwarding(st, events, i) && i < |events|
    ensures var r := AddListener(st, Ev(events[i]), Forwarder(events, events[i]));
      Forwarding(r, events, i + 1) && r == st.(lists := r.lists, callbacks := r.callbacks)
      && ListOf(r, AnyOf(events)) == ListOf(st, AnyOf(events))
  {
    var e := events[i];
    assert e !in events[..i];
    assert ListOf(st, Ev(e)) == [];
    assert events[..i + 1] == events[..i] + [e];
    var r := AddListener(st, Ev(e), Forwarder(events, e));
    forall j | 0 <= j < i ensures ListOf(r, Ev(events[j])) == [Some(Forwarder(events, events[j]))] {
      assert events[j] != e;
    }
  }

  lemma {:induction false} ForwardAll(st: State, events: seq<string>, i: nat)
    requires Distinct(events) && Forwarding(st, events, i)
    ensures var r := BindForwarders(st, events, AnyOf(events), i);
      Forwarding(r, events, |events|) && r == st.(lists := r.lists, callbacks := r.callbacks)
      && ListOf(r, AnyOf(events)) == ListOf(st, AnyOf(events))
    decreases |events| - i
  {
    if i < |events| {
      ForwardStep(st, events, i);
      ForwardAll(AddListener(st, Ev(events[i]), Forwarder(events, events[i])), events, i + 1);
    }
  }

  /** The state after `any(events..., cb)` and the triggers `t`. */
  ghost predicate AnyInv(st: State, events: seq<string>, cb: nat, t: seq<Firing>) {
    && Forwarding(st, events, |events|) && !st.overflow
    && match FirstListed(events, t)
       case None =>
         ListOf(st, AnyOf(events)) == [Some(Wrapper(0, AnyOf(events), User(cb)))] && st.log == []
       case Some(f) =>
         Dead(ListOf(st, AnyOf(events))) && st.log == [Call(cb, [AnyRecord(Head(f.args), f.name)])]
  }

  lemma AnyBase(events: seq<string>, cb: nat)
    requires Distinct(events)
    ensures AnyInv(Any(Empty(), events, cb), events, cb, [])
  {
    var st := Once(Empty(), AnyOf(events), User(cb));
    assert events[..0] == [];
    ForwardAll(st, events, 0);
    assert events[..|events|] == events;
  }

  /** The forwarder's re-trigger of the synthetic key, one level down. */
  lemma AnyInner(st: State, events: seq<string>, cb: nat, rec: Value)
    requires Forwarding(st, events, |events|)
    requires ListOf(st, AnyOf(events)) == [Some(Wrapper(0, AnyOf(events), User(cb)))] || Dead(ListOf(st, AnyOf(events)))
    ensures var r := Dispatch(st, AnyOf(events), [rec], 0);
      var live := ListOf(st, AnyOf(events)) == [Some(Wrapper(0, AnyOf(events), User(cb)))];
      && r == st.(lists := r.lists, log := r.log) && Forwarding(r, events, |events|)
      && Dead(ListOf(r, AnyOf(events)))
      && (forall x :: x in events ==> ListOf(r, Ev(x)) == ListOf(st, Ev(x)))
      && r.log == st.log + (if live then [Call(cb, [rec])] else [])
  {
    var k := AnyOf(events);
    if ListOf(st, k) == [Some(Wrapper(0, k, User(cb)))] {
      AnyInnerLive(st, events, cb, rec);
    } else {
      AnyInnerDead(st, events, rec);
    }
  }

  /** The re-trigger while `cb`'s wrapper is live: it is called and nulled. */
  lemma AnyInnerLive(st: State, events: seq<string>, cb: nat, rec: Value)
    requires Forwarding(st, events, |events|)
    requires ListOf(st, AnyOf(events)) == [Some(Wrapper(0, AnyOf(events), User(cb)))]
    ensures var r := Dispatch(st, AnyOf(events), [rec], 0);
      && r == st.(lists := r.lists, log := r.log) && Forwarding(r, events, |events|)
      && ListOf(r, AnyOf(events)) == [None]
      && (forall x :: x in events ==> ListOf(r, Ev(x)) == ListOf(st, Ev(x)))
      && r.log == st.log + [Call(cb, [rec])]
  {
    var k := AnyOf(events);
    var w := Wrapper(0, k, User(cb));
    DispatchSmall(st, k, [rec], 0);
    var st1 := Log(st, cb, [rec]);
    assert Dispatch(st, k, [rec], 0) == RemoveListener(st1, Some(k), Some(w));
    assert Valid(st1) && ListOf(st1, k) == [Some(w)] && forall k' :: ListOf(st1, k') == ListOf(st, k');
    assert NullAll([Some(w)], w) == [None];
  }

  /** The re-trigger once `cb`'s wrapper is gone: nothing is called and the array is left empty or nulled. */
  lemma AnyInnerDead(st: State, events: seq<string>, rec: Value)
    requires Forwarding(st, events, |events|) && Dead(ListOf(st, AnyOf(events)))
    ensures var r := Dispatch(st, AnyOf(events), [rec], 0);
      && r == st.(lists := r.lists) && Forwarding(r, events, |events|)
      && Dead(ListOf(r, AnyOf(events)))
      && (forall x :: x in events ==> ListOf(r, Ev(x)) == ListOf(st, Ev(x)))
  {
    var k := AnyOf(events);
    DispatchSmall(st, k, [rec], 0);
    if ListOf(st, k) == [None] {
      SetList(st, k, []);
    }
  }

  /** A firing of listed event `x`: its forwarder re-triggers the synthetic key. */
  lemma AnyHit(st: State, events: seq<string>, cb: nat, x: string, args: seq<Value>)
    requires Forwarding(st, events, |events|) && x in events
    requires ListOf(st, AnyOf(events)) == [Some(Wrapper(0, AnyOf(events), User(cb)))] || Dead(ListOf(st, AnyOf(events)))
    ensures var r := Trigger(st, x, args);
      var live := ListOf(st, AnyOf(events)) == [Some(Wrapper(0, AnyOf(events), User(cb)))];
      && r == st.(lists := r.lists, log := r.log) && Forwarding(r, events, |events|)
      && Dead(ListOf(r, AnyOf(events)))
      && r.log == st.log + (if live then [Call(cb, [AnyRecord(Head(args), x)])] else [])
  {
    assert ListOf(st, Ev(x)) == [Some(Forwarder(events, x))];
    DispatchSmall(st, Ev(x), args, 1);
    assert Trigger(st, x, args) == Dispatch(st, AnyOf(events), [AnyRecord(Head(args), x)], 0);
    AnyInner(st, events, cb, AnyRecord(Head(args), x));
  }

  lemma AnyStep(st: State, events: seq<string>, cb: nat, t: seq<Firing>, f: Firing)
    requires AnyInv(st, events, cb, t)
    ensures AnyInv(Trigger(st, f.name, f.args), events, cb, t + [f])
  {
    assert (t + [f])[..|t|] == t;
    if f.name in events {
      AnyHit(st, events, cb, f.name, f.args);
    } else {
      assert Ev(f.name) !in st.callbacks;
      assert Trigger(st, f.name, f.args) == st;
    }
  }

  lemma {:induction false} AnyRun(st0: State, events: seq<string>, cb: nat, t: seq<Firing>)
    requires AnyInv(st0, events, cb, [])
    ensures AnyInv(Run(st0, t), events, cb, t)
  {
    if t != [] {
      var n := |t| - 1;
      var t0, f := t[..n], t[n];
      assert t0 + [f] == t;
      AnyRun(st0, events, cb, t0);
      var prev := Run(st0, t0);
      AnyStep(prev, events, cb, t0, f);
      assert Run(st0, t) == Trigger(prev, f.name, f.args);
    }
  }

  /**
   * `any(events..., cb)` followed by any sequence of triggers: `cb` runs
   * exactly once if some listed event fired, with `{data, eventName}` of
   * the first such firing, and not at all otherwise; the forwarders never
   * recurse past one level.
   */
  lemma AnyCallsBackOnce(events: seq<string>, cb: nat, t: seq<Firing>)
    requires Distinct(events) && AllEvent !in events
    ensures var r := Run(Any(Empty(), events, cb), t);
      && !r.overflow
      && r.log == match FirstListed(events, t)
                  case None => []
                  case Some(f) => [Call(cb, [AnyRecord(Head(f.args), f.name)])]
  {
    AnyBase(events, cb);
    AnyRun(Any(Empty(), events, cb), events, cb, t);
  }

  // ---------------------------------------------------------------------
  // any, as written: the synthetic name is `events.join('_')`
  // ---------------------------------------------------------------------

  /** `events.join('_')`. */
  function Join(events: seq<string>): string {
    if events == [] then ""
    else if |events| == 1 then events[0]
    else events[0] + "_" + Join(events[1..])
  }

  /** `any(events..., callback)` with the joined name as an ordinary event name. */
  function AnyAsWritten(st: State, events: seq<string>, cb: nat): State {
    var target := Ev(Join(events));
    BindForwarders(Once(st, target, User(cb)), events, target, 0)
  }

  /** A proxy whose array for `e` is `[f]` or `[null, f]`, `f` a forwarder from `e` to itself. */
  ghost predicate SelfForwarding(st: State, e: string) {
    var f := Forward([e], e, Ev(e));
    Valid(st) && Wildcard !in st.callbacks && Ev(e) in st.callbacks
    && (ListOf(st, Ev(e)) == [Some(f)] || ListOf(st, Ev(e)) == [None, Some(f)])
  }

  /** A trigger of a self-forwarding event, at any depth, runs into the nesting bound. */
  lemma {:induction false} SelfForwardingOverflows(st: State, e: string, args: seq<Value>, depth: nat)
    requires SelfForwarding(st, e)
    ensures Dispatch(st, Ev(e), args, depth).overflow
    decreases depth
  {
    var f := Forward([e], e, Ev(e));
    var r := st.callbacks[Ev(e)];
    var st1 := if ListOf(st, Ev(e)) == [None, Some(f)] then st.(lists := st.lists[r := [Some(f)]]) else st;
    if ListOf(st, Ev(e)) == [None, Some(f)] {
      assert Splice([None, Some(f)], 0) == [Some(f)];
      assert Pass(st, r, args, 0, 2, depth) == Pass(st1, r, args, 0, 1, depth);
    }
    assert Deref(st1.lists, r) == [Some(f)];
    PassSmallIs(st1, r, args, depth);
    assert Dispatch(st, Ev(e), args, depth) == Invoke(st1, f, args, depth);
    if depth > 0 {
      SelfForwardingOverflows(st1, e, [AnyRecord(Head(args), e)], depth - 1);
    }
  }

  /** What `any(e, cb)` as written binds on a fresh proxy: the `once` wrapper and the forwarder share `e`'s array. */
  lemma AnyAsWrittenShape(e: string, cb: nat)
    ensures AnyAsWritten(Empty(), [e], cb)
         == Empty().(nextId := 1, callbacks := map[Ev(e) := 0],
                     lists := [[Some(Wrapper(0, Ev(e), User(cb))), Some(Forward([e], e, Ev(e)))]])
  {
    var k := Ev(e);
    assert Join([e]) == e;
    var st0 := Once(Empty(), k, User(cb));
    assert st0 == Empty().(nextId := 1, lists := [[Some(Wrapper(0, k, User(cb)))]], callbacks := map[k := 0]);
    assert BindForwarders(AddListener(st0, k, Forward([e], e, k)), [e], k, 1) == AddListener(st0, k, Forward([e], e, k));
    assert [Some(Wrapper(0, k, User(cb)))] + [Some(Forward([e], e, k))] == [Some(Wrapper(0, k, User(cb))), Some(Forward([e], e, k))];
  }

  /** The first trigger of `e`: the wrapper calls back and unbinds itself, then the forwarder runs. */
  lemma AnyAsWrittenFirst(e: string, cb: nat, args: seq<Value>, depth: nat)
    requires e != ""
    ensures var k := Ev(e);
      var f := Forward([e], e, k);
      var st := AnyAsWritten(Empty(), [e], cb);
      var st1 := Log(st, cb, args).(lists := [[None, Some(f)]]);
      Dispatch(st, k, args, depth) == Invoke(st1, f, args, depth) && SelfForwarding(st1, e)
  {
    var k := Ev(e);
    var f := Forward([e], e, k);
    var w := Wrapper(0, k, User(cb));
    AnyAsWrittenShape(e, cb);
    var st := AnyAsWritten(Empty(), [e], cb);
    var st1 := Log(st, cb, args).(lists := [[None, Some(f)]]);
    assert NullAll([Some(w), Some(f)], w) == [None, Some(f)];
    assert Invoke(st, w, args, depth) == st1;
    assert Pass(st, 0, args, 0, 2, depth) == Pass(st1, 0, args, 1, 2, depth);
    assert Pass(st1, 0, args, 1, 2, depth) == Pass(Invoke(st1, f, args, depth), 0, args, 2, 2, depth);
    assert Dispatch(st, k, args, depth) == Pass(st, 0, args, 0, 2, depth);
  }

  /**
   * `any(e, cb)` as written, then `emit(e, data)`: `cb` is first called
   * with the raw payload, and the forwarder then re-triggers `e` at every
   * nesting level, so that no depth bound suffices: in the source the
   * recursion does not end.
   */
  lemma AnyAsWrittenLoops(e: string, cb: nat, args: seq<Value>, depth: nat)
    requires e != ""
    ensures Dispatch(AnyAsWritten(Empty(), [e], cb), Ev(e), args, depth).overflow
  {
    var f := Forward([e], e, Ev(e));
    AnyAsWrittenFirst(e, cb, args, depth);
    var st1 := Log(AnyAsWritten(Empty(), [e], cb), cb, args).(lists := [[None, Some(f)]]);
    if depth > 0 {
      SelfForwardingOverflows(st1, e, [AnyRecord(Head(args), e)], depth - 1);
    }
  }

  // ---------------------------------------------------------------------
  // not
  // ---------------------------------------------------------------------

  /** The calls `not(e, cb)` makes over the triggers `t`: the payload of every firing of another event. */
  function NotLog(e: string, cb: nat, t: seq<Firing>): seq<Call> {
    if t == [] then []
    else
      var n := |t| - 1;
      NotLog(e, cb, t[..n]) + (if t[n].name != e then [Call(cb, [Head(t[n].args)])] else [])
  }

  ghost predicate NotInv(st: State, e: string, cb: nat, t: seq<Firing>) {
    && Valid(st) && st.callbacks.Keys == {Wildcard}
    && ListOf(st, Wildcard) == [Some(Excluding(e, cb))]
    && st.log == NotLog(e, cb, t)
  }

  lemma NotStep(st: State, e: string, cb: nat, t: seq<Firing>, f: Firing)
    requires NotInv(st, e, cb, t)
    ensures NotInv(Trigger(st, f.name, f.args), e, cb, t + [f])
  {
    var t' := t + [f];
    assert t'[..|t|] == t && t'[|t|] == f;
    var k := Ev(f.name);
    DispatchSmall(st, k, f.args, 1);
    assert k !in st.callbacks;
    var a := [EventName(k)] + f.args;
    assert Trigger(st, f.name, f.args) == PassSmall(st, st.callbacks[Wildcard], a, 1);
    assert PassSmall(st, st.callbacks[Wildcard], a, 1) == Invoke(st, Excluding(e, cb), a, 1);
    assert Head(a) == EventName(k) && Second(a) == Head(f.args);
    assert NotLog(e, cb, t') == st.log + (if f.name != e then [Call(cb, [Head(f.args)])] else []);
  }

  lemma {:induction false} NotRun(st0: State, e: string, cb: nat, t: seq<Firing>)
    requires NotInv(st0, e, cb, [])
    ensures NotInv(Run(st0, t), e, cb, t)
  {
    if t != [] {
      var n := |t| - 1;
      var t0, f := t[..n], t[n];
      assert t0 + [f] == t;
      NotRun(st0, e, cb, t0);
      var prev := Run(st0, t0);
      NotStep(prev, e, cb, t0, f);
      assert Run(st0, t) == Trigger(prev, f.name, f.args);
    }
  }

  /** `not(e, cb)` followed by any sequence of triggers: `cb` gets the payload of every firing of another event, in order. */
  lemma NotCallsBackOnOthers(e: string, cb: nat, t: seq<Firing>)
    requires e != AllEvent
    ensures Run(Not(Empty(), e, cb), t).log == NotLog(e, cb, t)
  {
    NotRun(Not(Empty(), e, cb), e, cb, t);
  }

  /** The number of calls `not` makes is the number of firings of other events. */
  lemma {:induction false} NotLogCount(e: string, cb: nat, t: seq<Firing>)
    ensures |NotLog(e, cb, t)| == |t| - |ArgsOf(t, e)|
  {
    if t != [] {
      NotLogCount(e, cb, t[..|t| - 1]);
    }
  }
}

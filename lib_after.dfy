/**
 * `after` and `group` of lib/eventproxy.js on a fresh proxy. `after(e, N)`
 * counts firings of `e` with a wildcard listener and calls back once, at the
 * N-th, with the payloads in firing order; `group(e)` hands out indices in
 * call order, and the results reach the callback by index, whatever order
 * the grouped calls complete in.
 */
module LibAfter {
  import opened Common
  import opened Slots
  import opened LibModel
  import opened LibDispatch

  /** The first argument of each firing: the payload `after`'s listener collects. */
  function Heads(xs: seq<seq<Value>>): (hs: seq<Value>)
    ensures |hs| == |xs| && forall i :: 0 <= i < |xs| ==> hs[i] == Head(xs[i])
  {
    seq(|xs|, i requires 0 <= i < |xs| => Head(xs[i]))
  }

  /** The firing at which `after(e, times)` calls back: `times` counts down and fires below 1. */
  function Threshold(times: int): nat {
    if times < 1 then 1 else times
  }

  /** A proxy whose only binding is `after`'s counter, instance 0, on the wildcard. */
  ghost predicate CounterOnly(st: State) {
    Valid(st) && st.callbacks.Keys == {Wildcard}
  }

  /** The wildcard pass of a trigger the counter ignores, or that finds it already unbound. */
  lemma WildcardQuiet(st: State, key: Key, args: seq<Value>)
    requires CounterOnly(st) && key != Wildcard
    requires Dead(ListOf(st, Wildcard))
          || (ListOf(st, Wildcard) == [Some(Counter(0))] && CountFiring(st, 0, EventName(key), Head(args)) == st)
    ensures var r := Dispatch(st, key, args, 1);
      && r == st.(lists := r.lists) && CounterOnly(r)
      && ListOf(r, Wildcard) == (if Dead(ListOf(st, Wildcard)) then [] else ListOf(st, Wildcard))
  {
    DispatchSmall(st, key, args, 1);
    if ListOf(st, Wildcard) == [None] {
      SetList(st, Wildcard, []);
    }
  }

  /** The counter's firing that reaches the threshold: it unbinds itself, then calls back. */
  lemma CounterDone(st1: State, cb: nat, data: Value)
    requires CounterOnly(st1) && ListOf(st1, Wildcard) == [Some(Counter(0))]
    ensures var r := RemoveListener(st1, Some(Wildcard), Some(Counter(0)));
      r == st1.(lists := r.lists) && CounterOnly(r) && ListOf(r, Wildcard) == [None]
  {
    assert NullAll([Some(Counter(0))], Counter(0)) == [None];
  }

  /** A trigger of any other key while the counter is live: one call of the counter, with the event name and first argument. */
  lemma CounterPass(st: State, key: Key, args: seq<Value>)
    requires CounterOnly(st) && ListOf(st, Wildcard) == [Some(Counter(0))] && key != Wildcard
    ensures Dispatch(st, key, args, 1) == CountFiring(st, 0, EventName(key), Head(args))
  {
    DispatchSmall(st, key, args, 1);
    assert Second([EventName(key)] + args) == Head(args);
  }

  // ---------------------------------------------------------------------
  // after
  // ---------------------------------------------------------------------

  /** The state after `after(e, times, cb)` (times not 0) and the triggers `t`. */
  ghost predicate AfterInv(st: State, e: string, times: int, cb: nat, t: seq<Firing>) {
    var c := |ArgsOf(t, e)|;
    && CounterOnly(st) && 0 in st.afters
    && if c < Threshold(times) then
         && ListOf(st, Wildcard) == [Some(Counter(0))]
         && st.afters[0] == AfterState(e, times - c, Heads(ArgsOf(t, e)), cb)
         && st.log == []
       else
         && Dead(ListOf(st, Wildcard))
         && st.log == [Call(cb, [Arr(Heads(ArgsOf(t, e))[..Threshold(times)])])]
  }

  lemma AfterBase(e: string, times: int, cb: nat)
    requires times != 0
    ensures AfterInv(After(Empty(), e, times, cb), e, times, cb, [])
  {
    assert ArgsOf([], e) == [];
  }

  /** A trigger of another event, or of `e` once the callback has run. */
  lemma AfterQuiet(st: State, e: string, times: int, cb: nat, t: seq<Firing>, f: Firing)
    requires AfterInv(st, e, times, cb, t)
    requires f.name != e || |ArgsOf(t, e)| >= Threshold(times)
    ensures AfterInv(Trigger(st, f.name, f.args), e, times, cb, t + [f])
  {
    ArgsOfSnoc(t, f, e);
    var c := |ArgsOf(t, e)|;
    if c < Threshold(times) {
      assert f.name != e;
      assert CountFiring(st, 0, EventName(Ev(f.name)), Head(f.args)) == st;
    }
    WildcardQuiet(st, Ev(f.name), f.args);
    var xs, ys := Heads(ArgsOf(t, e)), Heads(ArgsOf(t + [f], e));
    if c >= Threshold(times) {
      assert ys[..Threshold(times)] == xs[..Threshold(times)];
    } else {
      assert ys == xs;
    }
  }

  /** A firing of `e` before the threshold, as a change of state. */
  lemma AfterCountState(st: State, e: string, times: int, cb: nat, c: nat, data: seq<Value>, args: seq<Value>)
    requires CounterOnly(st) && 0 in st.afters && ListOf(st, Wildcard) == [Some(Counter(0))]
    requires st.afters[0] == AfterState(e, times - c, data, cb)
    ensures var r := Trigger(st, e, args);
      var data' := data + [Head(args)];
      && CounterOnly(r) && 0 in r.afters
      && r.afters[0] == AfterState(e, times - c - 1, data', cb)
      && ListOf(r, Wildcard) == (if c + 1 >= Threshold(times) then [None] else [Some(Counter(0))])
      && r.log == st.log + (if c + 1 >= Threshold(times) then [Call(cb, [Arr(data')])] else [])
  {
    var data' := data + [Head(args)];
    var st1 := st.(afters := st.afters[0 := AfterState(e, times - c - 1, data', cb)]);
    assert CountFiring(st, 0, EventName(Ev(e)), Head(args))
        == if times - c - 1 < 1 then Log(RemoveListener(st1, Some(Wildcard), Some(Counter(0))), cb, [Arr(data')]) else st1;
    assert CounterOnly(st1) && ListOf(st1, Wildcard) == [Some(Counter(0))];
    CounterPass(st, Ev(e), args);
    if c + 1 >= Threshold(times) {
      CounterDone(st1, cb, Arr(data'));
    }
  }

  /** A firing of `e` before the threshold: one more payload, and the callback at the last one. */
  lemma AfterCount(st: State, e: string, times: int, cb: nat, t: seq<Firing>, f: Firing)
    requires AfterInv(st, e, times, cb, t)
    requires f.name == e && |ArgsOf(t, e)| < Threshold(times)
    ensures AfterInv(Trigger(st, f.name, f.args), e, times, cb, t + [f])
  {
    ArgsOfSnoc(t, f, e);
    var c := |ArgsOf(t, e)|;
    var data := Heads(ArgsOf(t + [f], e));
    assert data == Heads(ArgsOf(t, e)) + [Head(f.args)];
    AfterCountState(st, e, times, cb, c, Heads(ArgsOf(t, e)), f.args);
    if c + 1 >= Threshold(times) {
      assert data[..Threshold(times)] == data;
    }
  }

  lemma AfterStep(st: State, e: string, times: int, cb: nat, t: seq<Firing>, f: Firing)
    requires AfterInv(st, e, times, cb, t)
    ensures AfterInv(Trigger(st, f.name, f.args), e, times, cb, t + [f])
  {
    if f.name == e && |ArgsOf(t, e)| < Threshold(times) {
      AfterCount(st, e, times, cb, t, f);
    } else {
      AfterQuiet(st, e, times, cb, t, f);
    }
  }

  lemma {:induction false} AfterRun(st0: State, e: string, times: int, cb: nat, t: seq<Firing>)
    requires AfterInv(st0, e, times, cb, [])
    ensures AfterInv(Run(st0, t), e, times, cb, t)
  {
    if t != [] {
      var n := |t| - 1;
      var t0, f := t[..n], t[n];
      assert t0 + [f] == t;
      AfterRun(st0, e, times, cb, t0);
      var prev := Run(st0, t0);
      AfterStep(prev, e, times, cb, t0, f);
      assert Run(st0, t) == Trigger(prev, f.name, f.args);
    }
  }

  /**
   * `after(e, times, cb)` followed by any sequence of triggers: with
   * `times` 0, `cb` has run at once with an empty array; otherwise it runs
   * once, when `e` has fired `times` times (once, for a negative count),
   * with the first payload of each of those firings, in firing order.
   */
  lemma AfterCallsBackOnce(e: string, times: int, cb: nat, t: seq<Firing>)
    requires e != AllEvent
    ensures var c := |ArgsOf(t, e)|;
      Run(After(Empty(), e, times, cb), t).log
        == if times == 0 then [Call(cb, [Arr([])])]
           else if c >= Threshold(times) then [Call(cb, [Arr(Heads(ArgsOf(t, e))[..Threshold(times)])])]
           else []
  {
    if times == 0 {
      RunUnbound(After(Empty(), e, times, cb), t);
    } else {
      AfterBase(e, times, cb);
      AfterRun(After(Empty(), e, times, cb), e, times, cb, t);
    }
  }

  // ---------------------------------------------------------------------
  // group
  // ---------------------------------------------------------------------

  /** `m` calls of `group(e)` in a row, collecting the functions returned; `None` if one throws. */
  function Groups(st: State, e: string, m: nat): Option<(State, seq<GroupHandle>)> {
    if m == 0 then Some((st, []))
    else
      match Groups(st, e, m - 1)
      case None => None
      case Some(p) =>
        match Group(p.0, e, None)
        case None => None
        case Some(q) => Some((q.0, p.1 + [q.1]))
  }

  /**
   * Successive `group(e)` calls take the indices `index`, `index + 1`, ...
   * in call order; without a prior `after(e, ...)` the first call throws.
   */
  lemma {:induction false} GroupsInCallOrder(st: State, e: string, m: nat)
    ensures e !in st.afterGroups && m > 0 ==> Groups(st, e, m).None?
    ensures e in st.afterGroups ==>
      var g := st.afterGroups[e];
      && Groups(st, e, m).Some?
      && Groups(st, e, m).value.0 == st.(afterGroups := st.afterGroups[e := g.(index := g.index + m)])
      && |Groups(st, e, m).value.1| == m
      && forall i :: 0 <= i < m ==> Groups(st, e, m).value.1[i] == GroupHandle(e, g.index + i, None)
  {
    if m > 0 {
      GroupsInCallOrder(st, e, m - 1);
    }
  }

  /** The grouped calls `0 .. k-1` of `order` have completed without error. */
  function Complete(st: State, hs: seq<GroupHandle>, order: seq<nat>, vals: seq<Value>, k: nat): State
    requires k <= |order| && forall j :: 0 <= j < |order| ==> order[j] < |hs| && order[j] < |vals|
  {
    if k == 0 then st
    else
      var i := order[k - 1];
      CallGroup(Complete(st, hs, order, vals, k - 1), hs[i], [Null, vals[i]], Undefined)
  }

  /** The state after `after(e, n)`, `n` calls of `group(e)`, and `k` of the grouped calls completed. */
  ghost predicate GroupInv(st: State, e: string, n: nat, cb: nat, order: seq<nat>, vals: seq<Value>, k: nat)
    requires k <= |order|
  {
    && CounterOnly(st) && 0 in st.afters && e in st.afterGroups
    && var res := st.afterGroups[e].results;
    && |res| <= n
    && (forall j :: 0 <= j < k ==> order[j] < |res| && order[j] < |vals| && res[order[j]] == vals[order[j]])
    && if k < n then
         && ListOf(st, Wildcard) == [Some(Counter(0))]
         && st.afters[0] == AfterState(e, n - k, [], cb)
         && st.log == []
       else
         && Dead(ListOf(st, Wildcard))
         && st.log == [Call(cb, [Arr(res)])]
  }

  /** The group signal of index `i` while the counter is live: the result stored at `i`, one less to wait for, the callback at the last. */
  lemma GroupSignalState(st: State, e: string, n: nat, cb: nat, k: nat, i: nat, v: Value)
    requires CounterOnly(st) && 0 in st.afters && e in st.afterGroups && k < n
    requires ListOf(st, Wildcard) == [Some(Counter(0))] && st.afters[0] == AfterState(e, n - k, [], cb)
    ensures var r := Dispatch(st, GroupSignal(e), [GroupItem(i, v)], 1);
      var res' := Put(st.afterGroups[e].results, i, v);
      && CounterOnly(r) && 0 in r.afters && e in r.afterGroups && r.afterGroups[e].results == res'
      && if k + 1 < n then
           ListOf(r, Wildcard) == [Some(Counter(0))] && r.afters[0] == AfterState(e, n - k - 1, [], cb) && r.log == st.log
         else
           Dead(ListOf(r, Wildcard)) && r.log == st.log + [Call(cb, [Arr(res')])]
  {
    var g := st.afterGroups[e];
    var res' := Put(g.results, i, v);
    var groups := st.afterGroups[e := g.(results := res')];
    var st1 := st.(afters := st.afters[0 := AfterState(e, n - k - 1, [], cb)], afterGroups := groups);
    assert CountFiring(st, 0, EventName(GroupSignal(e)), GroupItem(i, v))
        == if n - k - 1 < 1 then Log(RemoveListener(st1, Some(Wildcard), Some(Counter(0))), cb, [Arr(res')]) else st1;
    assert CounterOnly(st1) && ListOf(st1, Wildcard) == [Some(Counter(0))];
    CounterPass(st, GroupSignal(e), [GroupItem(i, v)]);
    if n - k - 1 < 1 {
      CounterDone(st1, cb, Arr(res'));
    }
  }

  /** One grouped call completes (the first `n` completions all reach the counter). */
  lemma GroupStep(st: State, next: State, e: string, n: nat, cb: nat, order: seq<nat>, vals: seq<Value>, k: nat)
    requires |vals| == n && k < n && k < |order| && forall j :: 0 <= j < |order| ==> order[j] < n
    requires GroupInv(st, e, n, cb, order, vals, k)
    requires next == CallGroup(st, GroupHandle(e, order[k], None), [Null, vals[order[k]]], Undefined)
    ensures GroupInv(next, e, n, cb, order, vals, k + 1)
  {
    var i := order[k];
    assert next == Dispatch(st, GroupSignal(e), [GroupItem(i, vals[i])], 1);
    GroupSignalState(st, e, n, cb, k, i, vals[i]);
  }

  lemma {:induction false} GroupRun(st0: State, hs: seq<GroupHandle>, e: string, n: nat, cb: nat, order: seq<nat>, vals: seq<Value>, k: nat)
    requires |vals| == n && |hs| == n && |order| == n && k <= n
    requires forall i :: 0 <= i < n ==> hs[i] == GroupHandle(e, i, None)
    requires forall j :: 0 <= j < n ==> order[j] < n
    requires GroupInv(st0, e, n, cb, order, vals, 0)
    ensures GroupInv(Complete(st0, hs, order, vals, k), e, n, cb, order, vals, k)
  {
    if k > 0 {
      GroupRun(st0, hs, e, n, cb, order, vals, k - 1);
      CompleteStep(st0, hs, e, n, cb, order, vals, k);
    }
  }

  /** The `k`-th completion is the grouped call of index `order[k - 1]`, without error. */
  lemma CompleteStep(st0: State, hs: seq<GroupHandle>, e: string, n: nat, cb: nat, order: seq<nat>, vals: seq<Value>, k: nat)
    requires |vals| == n && |hs| == n && |order| == n && 0 < k <= n
    requires forall i :: 0 <= i < n ==> hs[i] == GroupHandle(e, i, None)
    requires forall j :: 0 <= j < n ==> order[j] < n
    requires GroupInv(Complete(st0, hs, order, vals, k - 1), e, n, cb, order, vals, k - 1)
    ensures GroupInv(Complete(st0, hs, order, vals, k), e, n, cb, order, vals, k)
  {
    GroupStep(Complete(st0, hs, order, vals, k - 1), Complete(st0, hs, order, vals, k), e, n, cb, order, vals, k - 1);
  }

  /** Every index below `n` having been written with its value, the results are exactly the values. */
  lemma ResultsComplete(res: seq<Value>, order: seq<nat>, vals: seq<Value>, n: nat)
    requires |vals| == n && |order| == n && |res| <= n
    requires forall i :: 0 <= i < n ==> i in order
    requires forall j :: 0 <= j < n ==> order[j] < |res| && res[order[j]] == vals[order[j]]
    ensures res == vals
  {
    if n > 0 {
      assert n - 1 in order;
      var j :| 0 <= j < n && order[j] == n - 1;
    }
    forall i | 0 <= i < n ensures res[i] == vals[i] {
      assert i in order;
      var j :| 0 <= j < n && order[j] == i;
    }
  }

  /**
   * `after(e, n, cb)`, then `n` calls of `group(e)`, whose functions are
   * then called without error in the order `order` (every one of them
   * called), the function from the i-th `group` call passing `vals[i]`:
   * `cb` is called once, with `vals` in the order of the `group` calls.
   */
  lemma GroupResultsInCallOrder(e: string, n: nat, cb: nat, order: seq<nat>, vals: seq<Value>)
    requires n >= 1 && |vals| == n && |order| == n
    requires forall i :: 0 <= i < n ==> i in order
    requires forall j :: 0 <= j < n ==> order[j] < n
    ensures var st := After(Empty(), e, n, cb);
      var p := Groups(st, e, n);
      && p.Some? && |p.value.1| == n
      && Complete(p.value.0, p.value.1, order, vals, n).log == [Call(cb, [Arr(vals)])]
  {
    var st := After(Empty(), e, n, cb);
    GroupsInCallOrder(st, e, n);
    var p := Groups(st, e, n).value;
    assert GroupInv(p.0, e, n, cb, order, vals, 0);
    GroupRun(p.0, p.1, e, n, cb, order, vals, n);
    var r := Complete(p.0, p.1, order, vals, n);
    ResultsComplete(r.afterGroups[e].results, order, vals, n);
  }
}

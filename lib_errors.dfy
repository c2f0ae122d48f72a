/**
 * The error paths of lib/eventproxy.js: `fail` binds a `once` handler on
 * 'error' that drops every binding before calling back, `throw` and a
 * `done` wrapper given an error both emit 'error', and `create` wires a
 * trailing error handler through `fail`.
 */
module LibErrors {
  import opened Common
  import opened Slots
  import opened LibModel
  import opened LibDispatch
  import opened LibAssign

  /** The key 'error'. */
  function ErrorKey(): Key {
    Ev("error")
  }

  /** `fail`'s wrapper, bound alone on 'error': the pass over it empties the map, then calls back. */
  lemma ErrorPass(st: State, n: nat, cb: nat, args: seq<Value>)
    requires Valid(st) && ListOf(st, ErrorKey()) == [Some(Wrapper(n, ErrorKey(), FailHandler(cb)))]
    ensures ErrorKey() in st.callbacks
    ensures PassSmall(st, st.callbacks[ErrorKey()], args, 1) == st.(callbacks := map[], log := st.log + [Call(cb, args)])
  {
    var w := Wrapper(n, ErrorKey(), FailHandler(cb));
    var st1 := Log(RemoveListener(st, None, None), cb, args);
    assert Invoke(st, FailHandler(cb), args, 1) == st1;
    assert RemoveListener(st1, Some(ErrorKey()), Some(w)) == st1;
  }

  /**
   * `fail(cb)` on a proxy with no other 'error' listener, then `throw(args)`:
   * `cb` gets every argument, the wildcard listeners bound before still run
   * in that same trigger (the trigger holds the map it started with), and
   * afterwards nothing is bound, so that no later trigger calls anything.
   */
  lemma FailUnbindsEverything(st: State, cb: nat, all: Option<nat>, args: seq<Value>, t: seq<Firing>)
    requires Valid(st) && ListOf(st, ErrorKey()) == []
    requires ListOf(st, Wildcard) == if all.Some? then [Some(User(all.value))] else []
    ensures var r := Throw(Fail(st, cb), args);
      && r.callbacks == map[]
      && r.log == st.log + [Call(cb, args)] + (if all.Some? then [Call(all.value, [EventName(ErrorKey())] + args)] else [])
      && Run(r, t) == r
  {
    var st0 := Fail(st, cb);
    ErrorPass(st0, st.nextId, cb, args);
    DispatchSmall(st0, ErrorKey(), args, 1);
    var r := Throw(st0, args);
    assert ListOf(st0, Wildcard) == ListOf(st, Wildcard);
    RunUnbound(r, t);
  }

  /** A `done` wrapper called with a truthy error emits 'error' with every argument: a bound `fail` handler gets them. */
  lemma DoneErrorReachesFail(st: State, cb: nat, handler: Handler, transform: Option<nat>, callArgs: seq<Value>, transformed: Value)
    requires Valid(st) && ListOf(st, ErrorKey()) == [] && ListOf(st, Wildcard) == []
    requires Truthy(Head(callArgs))
    ensures var r := CallDone(Fail(st, cb), handler, transform, callArgs, transformed);
      r.callbacks == map[] && r.log == st.log + [Call(cb, callArgs)]
  {
    FailUnbindsEverything(st, cb, None, callArgs, []);
  }

  /**
   * `done(name)` or `done(name, fn)` called without error: the listener of
   * `name` gets the arguments after the error, or, with `fn`, what `fn`
   * returned from them, `fn` having been called first.
   */
  lemma DoneEmits(st: State, name: string, l: nat, transform: Option<nat>, callArgs: seq<Value>, transformed: Value)
    requires Valid(st) && ListOf(st, Ev(name)) == [Some(User(l))] && ListOf(st, Wildcard) == []
    requires !Truthy(Head(callArgs))
    ensures CallDone(st, EventHandler(name), transform, callArgs, transformed).log
         == st.log + (if transform.Some? then [Call(transform.value, Rest(callArgs)), Call(l, [transformed])]
                      else [Call(l, Rest(callArgs))])
  {
    var st1 := if transform.Some? then Log(st, transform.value, Rest(callArgs)) else st;
    var args := if transform.Some? then [transformed] else Rest(callArgs);
    DispatchSmall(st1, Ev(name), args, 1);
  }

  /**
   * `done(fn)` called without error: `fn` gets the arguments after the
   * error; the shortcut for at most two arguments agrees with the general
   * path except that with no data `fn` gets one undefined argument.
   */
  lemma DoneCallsFunction(st: State, id: nat, transform: Option<nat>, callArgs: seq<Value>, transformed: Value)
    requires !Truthy(Head(callArgs))
    ensures CallDone(st, FnHandler(id), transform, callArgs, transformed).log
         == st.log + [Call(id, if |callArgs| <= 1 then [Undefined] else callArgs[1..])]
  {
    if |callArgs| == 2 {
      assert [Second(callArgs)] == callArgs[1..];
    }
  }

  /** `create(events..., cb, err)` reads its last argument as the error handler and the rest as `all`'s. */
  lemma CreateUnfold(events: seq<string>, cb: nat, err: nat)
    requires |events| >= 1
    ensures Create(Names(events) + [Fn(cb), Fn(err)]) == Arm(Fail(Empty(), err), EvKeys(events), cb, true)
  {
    var args := Names(events) + [Fn(cb), Fn(err)];
    var rest := Names(events) + [Fn(cb)];
    assert args[..|args| - 1] == rest;
    assert rest[..|rest| - 1] == Names(events);
    var st := Fail(Empty(), err);
    assert Create(args) == All(st, rest);
    assert All(st, rest) == Arm(st, KeysOf(Names(events)), cb, true);
  }

  /** `fail(err)` on a fresh proxy: its wrapper alone on 'error', nothing else bound. */
  lemma FailShape(err: nat)
    ensures var st := Fail(Empty(), err);
      && Valid(st) && st.log == [] && st.nextId == 1
      && ListOf(st, ErrorKey()) == [Some(Wrapper(0, ErrorKey(), FailHandler(err)))]
      && ListOf(st, Wildcard) == []
  {
    assert Valid(Empty());
  }

  /** The rest of `_assign` on keys other than 'error': the arrays of 'error' untouched, `_all` pushed on the wildcard. */
  lemma ArmBeside(st: State, keys: seq<Key>, cb: nat, isOnce: bool)
    requires Valid(st) && ErrorKey() !in keys && Wildcard !in keys
    ensures var r := Arm(st, keys, cb, isOnce);
      && Valid(r) && r.log == st.log
      && ListOf(r, ErrorKey()) == ListOf(st, ErrorKey())
      && ListOf(r, Wildcard) == ListOf(st, Wildcard) + [Some(Check(st.nextId))]
      && st.nextId in r.assigns && r.assigns[st.nextId] == AssignState(keys, cb, isOnce, 0, {})
  {
    var k := st.nextId;
    var st1 := Opened(st, keys, cb, isOnce);
    assert forall k' :: ListOf(st1, k') == ListOf(st, k');
    BindRecordsFrame(st1, k, keys, isOnce, 0);
    assert keys[0..] == keys;
    var b := BindRecords(st1, k, keys, isOnce, 0);
    assert Valid(b) && ListOf(b, Wildcard) == ListOf(st, Wildcard) && ListOf(b, ErrorKey()) == ListOf(st, ErrorKey());
    var r := AddListener(b, Wildcard, Check(k));
    assert Arm(st, keys, cb, isOnce) == r;
  }

  /** What `create(events..., cb, err)` binds besides `all`'s record listeners. */
  lemma CreateShape(events: seq<string>, cb: nat, err: nat)
    requires |events| >= 1 && "error" !in events
    ensures var c := Create(Names(events) + [Fn(cb), Fn(err)]);
      && Valid(c) && c.log == []
      && ListOf(c, ErrorKey()) == [Some(Wrapper(0, ErrorKey(), FailHandler(err)))]
      && ListOf(c, Wildcard) == [Some(Check(1))]
      && 1 in c.assigns && c.assigns[1].times == 0 && c.assigns[1].events == EvKeys(events)
  {
    CreateUnfold(events, cb, err);
    FailShape(err);
    assert ErrorKey() !in EvKeys(events) && Wildcard !in EvKeys(events);
    ArmBeside(Fail(Empty(), err), EvKeys(events), cb, true);
  }

  /** 'error' fired while `fail`'s wrapper and an incomplete `_all` are bound: only the error handler runs. */
  lemma ErrorBeforeAll(c: State, n: nat, err: nat, id: nat, args: seq<Value>)
    requires Valid(c) && ListOf(c, ErrorKey()) == [Some(Wrapper(n, ErrorKey(), FailHandler(err)))]
    requires ListOf(c, Wildcard) == [Some(Check(id))] && id in c.assigns && c.assigns[id].times < |c.assigns[id].events|
    ensures Trigger(c, "error", args) == c.(callbacks := map[], log := c.log + [Call(err, args)])
  {
    ErrorPass(c, n, err, args);
    DispatchSmall(c, ErrorKey(), args, 1);
    var st1 := c.(callbacks := map[], log := c.log + [Call(err, args)]);
    assert Deref(st1.lists, c.callbacks[Wildcard]) == [Some(Check(id))];
    assert CheckAll(st1, id, EventName(ErrorKey())) == st1;
  }

  /**
   * `create(events..., cb, err)`, then 'error' fired before `all` completes:
   * `err` gets the arguments and every binding is gone, so that `cb` is
   * never called whatever fires afterwards.
   */
  lemma CreateErrorStopsAll(events: seq<string>, cb: nat, err: nat, args: seq<Value>, t: seq<Firing>)
    requires |events| >= 1 && "error" !in events && AllEvent !in events
    ensures Run(Trigger(Create(Names(events) + [Fn(cb), Fn(err)]), "error", args), t).log == [Call(err, args)]
  {
    var c := Create(Names(events) + [Fn(cb), Fn(err)]);
    CreateShape(events, cb, err);
    ErrorBeforeAll(c, 0, err, 1, args);
    RunUnbound(Trigger(c, "error", args), t);
  }

  /** Without a trailing error handler, `create(events..., cb)` is `all(events..., cb)` on a fresh proxy. */
  lemma CreateWithoutHandler(events: seq<string>, cb: nat, t: seq<Firing>)
    requires |events| >= 1 && Distinct(events) && "" !in events && AllEvent !in events
    ensures Run(Create(Names(events) + [Fn(cb)]), t).log
         == if Covered(events, t) then [Call(cb, AllData(events, t))] else []
  {
    var args := Names(events) + [Fn(cb)];
    assert args[|args| - 2] == Name(events[|events| - 1]);
    AllCallsBackOnce(events, cb, t);
  }
}

/**
 * The `EventProxy` object of lib/eventproxy.js. Its fields are the proxy's
 * own (`_callbacks`, `_fired`, `_after`) together with the listener arrays
 * they refer to and the closure variables of the combinators. Each method
 * runs the source's statements and loops and is proved to compute the
 * function of the same name in `LibModel`, whose properties are proved there
 * and in the other Lib modules.
 */
module LibProxy {
  import opened Common
  import opened Slots
  import opened LibModel
  import opened LibFrame

  class EventProxy {
    var lists: seq<ListenerList>
    var callbacks: map<Key, nat>
    var fired: map<Key, Value>
    var afterGroups: map<string, GroupState>
    var assigns: map<nat, AssignState>
    var afters: map<nat, AfterState>
    var nextId: nat
    ghost var log: seq<Call>
    ghost var overflow: bool

    ghost function Abs(): State
      reads this
    {
      State(lists, callbacks, fired, afterGroups, assigns, afters, nextId, log, overflow)
    }

    ghost predicate Valid()
      reads this
    {
      LibModel.Valid(Abs())
    }

    /** `new EventProxy()`. */
    constructor ()
      ensures Abs() == Empty()
      ensures Valid()
    {
      lists := [];
      callbacks := map[];
      fired := map[];
      afterGroups := map[];
      assigns := map[];
      afters := map[];
      nextId := 0;
      log := [];
      overflow := false;
    }

    /** `addListener(ev, callback)`: push onto the array of `ev`, creating it when absent. */
    method AddListener(k: Key, l: Listener)
      modifies this
      ensures Abs() == LibModel.AddListener(old(Abs()), k, l)
    {
      if k in callbacks && callbacks[k] < |lists| {
        var r := callbacks[k];
        lists := lists[r := lists[r] + [Some(l)]];
      } else {
        callbacks := callbacks[k := |lists|];
        lists := lists + [[Some(l)]];
      }
    }

    /** `headbind(ev, callback)`: unshift onto the array of `ev`, creating it when absent. */
    method Headbind(k: Key, l: Listener)
      modifies this
      ensures Abs() == LibModel.Headbind(old(Abs()), k, l)
    {
      if k in callbacks && callbacks[k] < |lists| {
        var r := callbacks[k];
        lists := lists[r := [Some(l)] + lists[r]];
      } else {
        callbacks := callbacks[k := |lists|];
        lists := lists + [[Some(l)]];
      }
    }

    /** `removeListener(eventname, callback)`: the loop nulls every slot equal to the callback. */
    method RemoveListener(name: Option<Key>, cb: Option<Listener>)
      modifies this
      ensures Abs() == LibModel.RemoveListener(old(Abs()), name, cb)
    {
      if name.None? || FalsyName(name.value) {
        callbacks := map[];
      } else if cb.None? {
        callbacks := callbacks[name.value := |lists|];
        lists := lists + [[]];
      } else if name.value in callbacks && callbacks[name.value] < |lists| {
        var r := callbacks[name.value];
        var list := lists[r];
        var l := |list|;
        var i := 0;
        while i < l
          invariant 0 <= i <= l == |list| == |lists[r]|
          invariant forall j :: 0 <= j < l ==> list[j] == if j < i then NullAll(lists[r], cb.value)[j] else lists[r][j]
        {
          if list[i] == Some(cb.value) {
            list := list[i := None];
          }
          i := i + 1;
        }
        assert list == NullAll(lists[r], cb.value);
        lists := lists[r := list];
      }
    }

    /** `removeAllListeners(event)`: `unbind(event)`. */
    method RemoveAllListeners(name: Option<Key>)
      requires Valid()
      modifies this
      ensures Valid()
      ensures Abs() == LibModel.RemoveListener(old(Abs()), name, None)
    {
      RemoveListener(name, None);
    }

    /** `bindForAll(callback)`. */
    method BindForAll(l: Listener)
      requires Valid()
      modifies this
      ensures Valid()
      ensures Abs() == LibModel.AddListener(old(Abs()), Wildcard, l)
    {
      AddListener(Wildcard, l);
    }

    /** `unbindForAll(callback)`. */
    method UnbindForAll(l: Listener)
      requires Valid()
      modifies this
      ensures Valid()
      ensures Abs() == LibModel.RemoveListener(old(Abs()), Some(Wildcard), Some(l))
    {
      RemoveListener(Some(Wildcard), Some(l));
    }

    /** The two phases of `trigger` (`while (both--)`), over the map as it is on entry. */
    method Dispatch(k: Key, args: seq<Value>, depth: nat)
      modifies this
      ensures Abs() == LibModel.Dispatch(old(Abs()), k, args, depth)
      decreases depth, 4
    {
      var calls := callbacks;
      if k in calls {
        RunPass(calls[k], args, |Deref(lists, calls[k])|, depth);
      }
      if Wildcard in calls {
        RunPass(calls[Wildcard], [EventName(k)] + args, |Deref(lists, calls[Wildcard])|, depth);
      }
    }

    /** `for (i = 0, l = list.length; i < l; i++)` over the array at `r`, splicing out null slots. */
    method RunPass(r: nat, args: seq<Value>, l0: int, depth: nat)
      modifies this
      ensures Abs() == Pass(old(Abs()), r, args, 0, l0, depth)
      decreases depth, 3
    {
      var i: int := 0;
      var l := l0;
      while i < l
        invariant 0 <= i
        invariant Pass(Abs(), r, args, i, l, depth) == Pass(old(Abs()), r, args, 0, l0, depth)
        decreases l - i
      {
        i, l := PassStep(r, args, i, l, depth);
      }
    }

    /** One turn of that loop: a null slot is spliced out and `i`, `l` step back, a live one is called; then `i++`. */
    method PassStep(r: nat, args: seq<Value>, i: int, l: int, depth: nat) returns (i': int, l': int)
      requires 0 <= i < l
      modifies this
      ensures 0 <= i' && l' - i' < l - i
      ensures Pass(Abs(), r, args, i', l', depth) == Pass(old(Abs()), r, args, i, l, depth)
      decreases depth, 2
    {
      var list := Deref(lists, r);
      i', l' := i, l;
      if i >= |list| || list[i].None? {
        lists := Store(lists, r, Splice(list, i));
        i', l' := i - 1, l - 1;
      } else {
        Invoke(list[i].value, args, depth);
      }
      i' := i' + 1;
    }

    /** `callback.apply(this, args)` for one listener slot. */
    method Invoke(l: Listener, args: seq<Value>, depth: nat)
      modifies this
      ensures Abs() == LibModel.Invoke(old(Abs()), l, args, depth)
      decreases depth, 1, l
    {
      match l
      case User(id) =>
        log := log + [Call(id, args)];
      case Wrapper(w, ev, inner) =>
        Invoke(inner, args, depth);
        RemoveListener(Some(ev), Some(l));
      case Record(k, key) =>
        RecordFiring(k, key, Head(args));
      case Check(k) =>
        CheckAll(k, Head(args));
      case Counter(k) =>
        CountFiring(k, Head(args), Second(args));
      case Forward(events, name, target) =>
        if depth == 0 {
          overflow := true;
        } else {
          Dispatch(target, [AnyRecord(Head(args), name)], depth - 1);
        }
      case Excluding(except, cb) =>
        if Head(args) != EventName(Ev(except)) {
          log := log + [Call(cb, [Second(args)])];
        }
      case FailHandler(cb) =>
        RemoveListener(None, None);
        log := log + [Call(cb, args)];
    }

    /** The body of `_assign`'s per-event listener. */
    method RecordFiring(k: nat, key: Key, data: Value)
      modifies this
      ensures Abs() == LibModel.RecordFiring(old(Abs()), k, key, data)
    {
      fired := fired[key := data];
      if k in assigns && key !in assigns[k].flag {
        var a := assigns[k];
        assigns := assigns[k := a.(flag := a.flag + {key}, times := a.times + 1)];
      }
    }

    /** The body of `_assign`'s `_all`, with its loop collecting the stored payloads. */
    method CheckAll(k: nat, event: Value)
      modifies this
      ensures Abs() == LibModel.CheckAll(old(Abs()), k, event)
    {
      if k !in assigns {
        return;
      }
      var a := assigns[k];
      if a.times < |a.events| {
        return;
      }
      if !(event.EventName? && event.key in a.flag) {
        return;
      }
      var data := [];
      var index := 0;
      while index < |a.events|
        invariant 0 <= index <= |a.events|
        invariant data == FiredData(fired, a.events)[..index]
      {
        var e := a.events[index];
        data := data + [if e in fired then fired[e] else Undefined];
        assert FiredData(fired, a.events)[..index + 1] == FiredData(fired, a.events)[..index] + [FiredData(fired, a.events)[index]];
        index := index + 1;
      }
      assert data == FiredData(fired, a.events);
      if a.isOnce {
        RemoveListener(Some(Wildcard), Some(Check(k)));
      }
      log := log + [Call(a.callback, data)];
    }

    /** The body of `after`'s wildcard listener `all(name, data)`. */
    method CountFiring(k: nat, name: Value, data: Value)
      modifies this
      ensures Abs() == LibModel.CountFiring(old(Abs()), k, name, data)
    {
      if k !in afters {
        return;
      }
      var a := afters[k];
      if name == EventName(Ev(a.event)) {
        CountEvent(k, data);
      } else if name == EventName(GroupSignal(a.event)) {
        CountGroupItem(k, data);
      }
    }

    /** `all` on a firing of the counted event. */
    method CountEvent(k: nat, data: Value)
      requires k in afters
      modifies this
      ensures Abs() == LibModel.CountEvent(old(Abs()), k, data)
    {
      var a := afters[k];
      var a' := a.(times := a.times - 1, firedData := a.firedData + [data]);
      afters := afters[k := a'];
      if a'.times < 1 {
        RemoveListener(Some(Wildcard), Some(Counter(k)));
        log := log + [Call(a.callback, [Arr(a'.firedData)])];
      }
    }

    /** `all` on the `_group` signal of the counted event. */
    method CountGroupItem(k: nat, data: Value)
      requires k in afters
      modifies this
      ensures Abs() == LibModel.CountGroupItem(old(Abs()), k, data)
    {
      var a := afters[k];
      if a.event in afterGroups && data.GroupItem? && data.index >= 0 {
        var g := afterGroups[a.event];
        afterGroups := afterGroups[a.event := g.(results := Put(g.results, data.index, data.result))];
      }
      afters := afters[k := a.(times := a.times - 1)];
      if a.times - 1 < 1 {
        var results := if a.event in afterGroups then afterGroups[a.event].results else [];
        RemoveListener(Some(Wildcard), Some(Counter(k)));
        log := log + [Call(a.callback, [Arr(results)])];
      }
    }

    /** `trigger(eventname, args...)` (aliases `emit`, `fire`). */
    method Trigger(name: string, args: seq<Value>)
      requires Valid()
      modifies this
      ensures Valid()
      ensures Abs() == LibModel.Trigger(old(Abs()), name, args)
    {
      Dispatch(Ev(name), args, 1);
      TriggerValid(old(Abs()), name, args);
    }

    /** `once(ev, callback)`. */
    method Once(k: Key, inner: Listener)
      requires Valid()
      modifies this
      ensures Valid()
      ensures Abs() == LibModel.Once(old(Abs()), k, inner)
    {
      var wrapper := Wrapper(nextId, k, inner);
      nextId := nextId + 1;
      AddListener(k, wrapper);
    }

    /** `immediate(ev, callback, data)`. */
    method Immediate(ev: string, cb: Listener, data: Value)
      requires Valid()
      modifies this
      ensures Valid()
      ensures Abs() == LibModel.Immediate(old(Abs()), ev, cb, data)
    {
      AddListener(Ev(ev), cb);
      Trigger(ev, [data]);
    }

    /** `_assign(events..., callback, isOnce)`: the argument checks. */
    method Assign(args: seq<Arg>, isOnce: bool)
      requires Valid()
      modifies this
      ensures Valid()
      ensures Abs() == LibModel.Assign(old(Abs()), args, isOnce)
    {
      if |args| + 1 < 3 {
        return;
      }
      var callback := args[|args| - 1];
      if !callback.Fn? {
        return;
      }
      Arm(KeysOf(args[..|args| - 1]), callback.id, isOnce);
    }

    /** The rest of `_assign`: new closure state, the binding loop, then `bindForAll(_all)`. */
    method Arm(events: seq<Key>, callback: nat, isOnce: bool)
      requires Valid()
      modifies this
      ensures Valid()
      ensures Abs() == LibModel.Arm(old(Abs()), events, callback, isOnce)
    {
      var k := NewAssign(events, callback, isOnce);
      BindRecordsLoop(k, events, isOnce);
      AddListener(Wildcard, Check(k));
    }

    /** `var _all`, `var times`, `var flag`: the closure state of one `_assign` call. */
    method NewAssign(events: seq<Key>, callback: nat, isOnce: bool) returns (k: nat)
      requires Valid()
      modifies this
      ensures Valid()
      ensures k == old(nextId)
      ensures Abs() == Opened(old(Abs()), events, callback, isOnce)
    {
      k := nextId;
      nextId := k + 1;
      assigns := assigns[k := AssignState(events, callback, isOnce, 0, {})];
    }

    /** `for (index = 0; index < length; index++) bind(events[index])`. */
    method BindRecordsLoop(k: nat, events: seq<Key>, isOnce: bool)
      requires Valid()
      modifies this
      ensures Valid()
      ensures Abs() == BindRecords(old(Abs()), k, events, isOnce, 0)
    {
      var index := 0;
      while index < |events|
        invariant 0 <= index <= |events|
        invariant Valid()
        invariant BindRecords(Abs(), k, events, isOnce, index) == BindRecords(old(Abs()), k, events, isOnce, 0)
      {
        BindRecord(k, events[index], isOnce);
        index := index + 1;
      }
    }

    /** One turn of that loop: `once` or `bind` of the record listener of `key`. */
    method BindRecord(k: nat, key: Key, isOnce: bool)
      requires Valid()
      modifies this
      ensures Valid()
      ensures Abs() == if isOnce then LibModel.Once(old(Abs()), key, Record(k, key)) else LibModel.AddListener(old(Abs()), key, Record(k, key))
    {
      if isOnce {
        Once(key, Record(k, key));
      } else {
        AddListener(key, Record(k, key));
      }
    }

    /** `all(events..., callback)`. */
    method All(args: seq<Arg>)
      requires Valid()
      modifies this
      ensures Valid()
      ensures Abs() == LibModel.All(old(Abs()), args)
    {
      Assign(args, true);
    }

    /** `tail(events..., callback)`. */
    method Tail(args: seq<Arg>)
      requires Valid()
      modifies this
      ensures Valid()
      ensures Abs() == LibModel.Tail(old(Abs()), args)
    {
      Assign(args, false);
    }

    /** `after(eventname, times, callback)`. */
    method After(e: string, times: int, cb: nat)
      requires Valid()
      modifies this
      ensures Valid()
      ensures Abs() == LibModel.After(old(Abs()), e, times, cb)
    {
      if times == 0 {
        log := log + [Call(cb, [Arr([])])];
        return;
      }
      var k := nextId;
      nextId := k + 1;
      afterGroups := afterGroups[e := GroupState(0, [])];
      afters := afters[k := AfterState(e, times, [], cb)];
      AddListener(Wildcard, Counter(k));
    }

    /** `group(eventname, callback)`: `None` where reading `_after[group].index` throws. */
    method Group(e: string, transform: Option<nat>) returns (h: Option<GroupHandle>)
      requires Valid()
      modifies this
      ensures Valid()
      ensures LibModel.Group(old(Abs()), e, transform).None? ==> h.None? && Abs() == old(Abs())
      ensures LibModel.Group(old(Abs()), e, transform).Some? ==>
        h == Some(LibModel.Group(old(Abs()), e, transform).value.1) && Abs() == LibModel.Group(old(Abs()), e, transform).value.0
    {
      if e !in afterGroups {
        return None;
      }
      var g := afterGroups[e];
      afterGroups := afterGroups[e := g.(index := g.index + 1)];
      h := Some(GroupHandle(e, g.index, transform));
    }

    /** Calling the function `group` returned. */
    method CallGroup(h: GroupHandle, callArgs: seq<Value>, transformed: Value)
      requires Valid()
      modifies this
      ensures Valid()
      ensures Abs() == LibModel.CallGroup(old(Abs()), h, callArgs, transformed)
    {
      if Truthy(Head(callArgs)) {
        Dispatch(Ev("error"), callArgs, 1);
        DispatchKeeps(old(Abs()), Ev("error"), callArgs, 1);
        return;
      }
      if h.transform.Some? {
        log := log + [Call(h.transform.value, Rest(callArgs))];
      }
      var result := if h.transform.Some? then transformed else Second(callArgs);
      ghost var st1 := Abs();
      Dispatch(GroupSignal(h.event), [GroupItem(h.index, result)], 1);
      DispatchKeeps(st1, GroupSignal(h.event), [GroupItem(h.index, result)], 1);
    }

    /** `any(events..., callback)`, with its binding loop. */
    method Any(events: seq<string>, cb: nat)
      requires Valid()
      modifies this
      ensures Valid()
      ensures Abs() == LibModel.Any(old(Abs()), events, cb)
    {
      Once(AnyOf(events), User(cb));
      ghost var st1 := Abs();
      var index := 0;
      while index < |events|
        invariant 0 <= index <= |events|
        invariant Valid()
        invariant BindForwarders(Abs(), events, AnyOf(events), index) == BindForwarders(st1, events, AnyOf(events), 0)
      {
        AddListener(Ev(events[index]), Forward(events, events[index], AnyOf(events)));
        index := index + 1;
      }
    }

    /** `not(eventname, callback)`. */
    method Not(e: string, cb: nat)
      requires Valid()
      modifies this
      ensures Valid()
      ensures Abs() == LibModel.Not(old(Abs()), e, cb)
    {
      BindForAll(Excluding(e, cb));
    }

    /** Calling the function `done(handler, callback)` returned. */
    method CallDone(handler: Handler, transform: Option<nat>, callArgs: seq<Value>, transformed: Value)
      requires Valid()
      modifies this
      ensures Valid()
      ensures Abs() == LibModel.CallDone(old(Abs()), handler, transform, callArgs, transformed)
    {
      if Truthy(Head(callArgs)) {
        Dispatch(Ev("error"), callArgs, 1);
        DispatchKeeps(old(Abs()), Ev("error"), callArgs, 1);
        return;
      }
      var args := Rest(callArgs);
      match handler
      case EventHandler(name) =>
        if transform.Some? {
          log := log + [Call(transform.value, args)];
          Trigger(name, [transformed]);
        } else {
          Trigger(name, args);
        }
      case FnHandler(id) =>
        if |callArgs| <= 2 {
          log := log + [Call(id, [Second(callArgs)])];
        } else {
          log := log + [Call(id, args)];
        }
    }

    /** `fail(callback)`. */
    method Fail(cb: nat)
      requires Valid()
      modifies this
      ensures Valid()
      ensures Abs() == LibModel.Fail(old(Abs()), cb)
    {
      Once(Ev("error"), FailHandler(cb));
    }

    /** `throw(args...)`. */
    method Throw(args: seq<Value>)
      requires Valid()
      modifies this
      ensures Valid()
      ensures Abs() == LibModel.Throw(old(Abs()), args)
    {
      Trigger("error", args);
    }

    /** `EventProxy.create(args...)`. */
    static method Create(args: seq<Arg>) returns (ep: EventProxy)
      ensures fresh(ep)
      ensures ep.Valid()
      ensures ep.Abs() == LibModel.Create(args)
    {
      ep := new EventProxy();
      if |args| > 0 {
        if args[|args| - 1].Fn? && |args| >= 2 && args[|args| - 2].Fn? {
          ep.Fail(args[|args| - 1].id);
          ep.All(args[..|args| - 1]);
        } else {
          ep.All(args);
        }
      }
    }
  }
}

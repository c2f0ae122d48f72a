/**
 * The `EventProxy` object of eventproxy.js (the older version): its own
 * fields `_callbacks` and `_fired`, the listener arrays they refer to, and
 * the closure variables of each `assign` call. Each method runs the source's
 * statements and loops and is proved to compute the function of the same
 * name in `OldModel`, whose properties are proved in `OldDispatch` and
 * `OldAssign`.
 */
module OldProxy {
  import opened Common
  import opened Slots
  import opened OldModel

  class EventProxy {
    var lists: seq<ListenerList>
    var callbacks: map<Key, nat>
    var fired: map<Key, seq<Value>>
    var assigns: map<nat, AssignState>
    var nextId: nat
    ghost var log: seq<Call>

    ghost function Abs(): State
      reads this
    {
      State(lists, callbacks, fired, assigns, nextId, log)
    }

    ghost predicate Valid()
      reads this
    {
      OldModel.Valid(Abs())
    }

    /** `new EventProxy()`. */
    constructor ()
      ensures Abs() == Empty()
      ensures Valid()
    {
      lists := [];
      callbacks := map[];
      fired := map[];
      assigns := map[];
      nextId := 0;
      log := [];
    }

    /** `bind(ev, callback)`: push onto the array of `ev`, creating it when absent. */
    method Bind(ev: Arg, l: Listener)
      modifies this
      ensures Abs() == OldModel.Bind(old(Abs()), ev, l)
    {
      var k := ArgKey(ev);
      if k in callbacks && callbacks[k] < |lists| {
        var r := callbacks[k];
        lists := lists[r := lists[r] + [Some(l)]];
      } else {
        callbacks := callbacks[k := |lists|];
        lists := lists + [[Some(l)]];
      }
    }

    /** `unbind(ev, callback)`, with its search loop that nulls the first match and breaks. */
    method Unbind(ev: Option<Arg>, cb: Option<Listener>)
      modifies this
      ensures Abs() == OldModel.Unbind(old(Abs()), ev, cb)
    {
      if ev.None? || ev.value == Name("") {
        callbacks := map[];
        return;
      }
      var k := ArgKey(ev.value);
      if cb.None? {
        callbacks := callbacks[k := |lists|];
        lists := lists + [[]];
        return;
      }
      if k !in callbacks {
        return;
      }
      var r := callbacks[k];
      var list := Deref(lists, r);
      var i := 0;
      while i < |list|
        invariant 0 <= i <= |list|
        invariant forall j :: 0 <= j < i ==> list[j] != Some(cb.value)
        invariant Abs() == old(Abs())
      {
        if list[i] == Some(cb.value) {
          lists := Store(lists, r, list[i := None]);
          break;
        }
        i := i + 1;
      }
    }

    /** `removeAllListeners(event)`. */
    method RemoveAllListeners(ev: Option<Arg>)
      modifies this
      ensures Abs() == OldModel.RemoveAllListeners(old(Abs()), ev)
    {
      Unbind(ev, None);
    }

    /** `trigger(eventName, data...)`: `while (both--)` over the name's array, then that of 'all'. */
    method Trigger(name: string, args: seq<Value>)
      requires Valid()
      modifies this
      ensures Valid()
      ensures Abs() == OldModel.Trigger(old(Abs()), name, args)
    {
      TriggerValid(Abs(), name, args);
      var calls := callbacks;
      var k := NameKey(name);
      if k in calls {
        RunPass(calls[k], args, |Deref(lists, calls[k])|);
      }
      if Wildcard in calls {
        RunPass(calls[Wildcard], [Str(name)] + args, |Deref(lists, calls[Wildcard])|);
      }
    }

    /** `for (i = 0, l = list.length; i < l; i++)` over the array at `r`, splicing out null slots. */
    method RunPass(r: nat, args: seq<Value>, l0: int)
      modifies this
      ensures Abs() == Pass(old(Abs()), r, args, 0, l0)
    {
      var i: int := 0;
      var l := l0;
      while i < l
        invariant 0 <= i
        invariant Pass(Abs(), r, args, i, l) == Pass(old(Abs()), r, args, 0, l0)
        decreases l - i
      {
        i, l := PassStep(r, args, i, l);
      }
    }

    /** One turn of that loop: a null slot is spliced out and `i`, `l` step back, a live one is called; then `i++`. */
    method PassStep(r: nat, args: seq<Value>, i: int, l: int) returns (i': int, l': int)
      requires 0 <= i < l
      modifies this
      ensures 0 <= i' && l' - i' < l - i
      ensures Pass(Abs(), r, args, i', l') == Pass(old(Abs()), r, args, i, l)
    {
      var list := Deref(lists, r);
      i', l' := i, l;
      if i >= |list| || list[i].None? {
        lists := Store(lists, r, Splice(list, i));
        i', l' := i - 1, l - 1;
      } else {
        Invoke(list[i].value, args);
      }
      i' := i' + 1;
    }

    /** `callback.apply(this, args)` for one listener slot. */
    method Invoke(l: Listener, args: seq<Value>)
      modifies this
      ensures Abs() == OldModel.Invoke(old(Abs()), l, args)
      decreases l
    {
      match l
      case User(id) =>
        log := log + [Call(id, args)];
      case Wrapper(w, ev, inner) =>
        Invoke(inner, args);
        Unbind(Some(ev), Some(l));
      case Record(k, key) =>
        RecordData(k, key, args);
      case Watch(k) =>
        WatchAll(k);
    }

    /** The body of `assign`'s `bind(key)` listener. */
    method RecordData(k: nat, key: Arg, data: seq<Value>)
      modifies this
      ensures Abs() == OldModel.RecordData(old(Abs()), k, key, data)
    {
      fired := fired[ArgKey(key) := data];
      if k in assigns {
        var a := assigns[k];
        assigns := assigns[k := a.(times := a.times + 1)];
      }
    }

    /** The body of `assign`'s `all`, with its loop collecting the stored data and its re-binding loop. */
    method WatchAll(k: nat)
      modifies this
      ensures Abs() == OldModel.WatchAll(old(Abs()), k)
    {
      if k !in assigns {
        return;
      }
      var a := assigns[k];
      if a.times < |a.events| {
        return;
      }
      var data := CollectData(a.events);
      log := log + [Call(a.callback, data)];
      if !a.isOnce {
        BindRecordsLoop(k, a.events);
        assigns := assigns[k := a.(times := 0)];
      } else {
        Unbind(Some(Name("all")), Some(Watch(k)));
      }
    }

    /** `all`'s loop `for (index = 0; index < length; ++index)` pushing each stored argument list that exists. */
    method CollectData(events: seq<Arg>) returns (data: seq<Value>)
      ensures data == Collected(fired, events)
    {
      data := [];
      var index := 0;
      while index < |events|
        invariant 0 <= index <= |events|
        invariant data == Collected(fired, events[..index])
      {
        var key := ArgKey(events[index]);
        if key in fired {
          data := data + [Arr(fired[key])];
        }
        assert events[..index + 1][..index] == events[..index];
        index := index + 1;
      }
      assert events[..index] == events;
    }

    /** `once(ev, callback)`. */
    method Once(ev: Arg, inner: Listener)
      modifies this
      ensures Abs() == OldModel.Once(old(Abs()), ev, inner)
    {
      var wrapper := Wrapper(nextId, ev, inner);
      nextId := nextId + 1;
      Bind(ev, wrapper);
    }

    /** `for (index = 0; index < length; index++) bind(events[index])`. */
    method BindRecordsLoop(k: nat, events: seq<Arg>)
      modifies this
      ensures Abs() == BindRecords(old(Abs()), k, events, 0)
    {
      var index := 0;
      while index < |events|
        invariant 0 <= index <= |events|
        invariant BindRecords(Abs(), k, events, index) == BindRecords(old(Abs()), k, events, 0)
      {
        Once(events[index], Record(k, events[index]));
        index := index + 1;
      }
    }

    /** `assign(events..., cb [, "persistent"])`: the argument checks, then the new instance. */
    method Assign(args: seq<Arg>)
      requires Valid()
      modifies this
      ensures Valid()
      ensures Abs() == OldModel.Assign(old(Abs()), args)
    {
      if |args| == 0 {
        return;
      }
      var last := args[|args| - 1];
      if last.Fn? {
        if |args| < 2 {
          return;
        }
        Arm(args[..|args| - 1], last.id, true);
      } else if last == Name("persistent") {
        if |args| < 3 {
          return;
        }
        var callback := args[|args| - 2];
        if !callback.Fn? {
          return;
        }
        Arm(args[..|args| - 2], callback.id, false);
      }
    }

    /** The rest of `assign`: closure state, the binding loop, then `bind("all", all)`. */
    method Arm(events: seq<Arg>, callback: nat, isOnce: bool)
      requires Valid()
      modifies this
      ensures Valid()
      ensures Abs() == OldModel.Arm(old(Abs()), events, callback, isOnce)
    {
      var k := NewAssign(events, callback, isOnce);
      BindRecordsLoop(k, events);
      Bind(Name("all"), Watch(k));
    }

    /** `times = 0` and the other closure variables of one `assign` call. */
    method NewAssign(events: seq<Arg>, callback: nat, isOnce: bool) returns (k: nat)
      requires Valid()
      modifies this
      ensures Valid()
      ensures k == old(nextId)
      ensures Abs() == Opened(old(Abs()), events, callback, isOnce)
    {
      k := nextId;
      nextId := k + 1;
      assigns := assigns[k := AssignState(events, callback, isOnce, 0)];
    }
  }
}

/**
 * The `EventProxy` object of event.emitter.js: its lazily created field
 * `_callbacks` and the closure variables of each `assign` call. Each
 * method runs the source's statements and loops and is proved to compute
 * the function of the same name in `EmitterModel`.
 */
module EmitterProxy {
  import opened Common
  import opened Slots
  import opened EmitterModel

  class EventProxy {
    var callbacks: Option<map<Key, ListenerList>>
    var assigns: map<nat, AssignState>
    var nextId: nat
    ghost var log: seq<Call>

    ghost function Abs(): State
      reads this
    {
      State(callbacks, assigns, nextId, log)
    }

    /** `new EventProxy()`: the constructor sets nothing. */
    constructor ()
      ensures Abs() == Empty()
    {
      callbacks := None;
      assigns := map[];
      nextId := 0;
      log := [];
    }

    /** `bind(ev, callback)`. */
    method Bind(ev: Arg, l: Listener)
      modifies this
      ensures Abs() == EmitterModel.Bind(old(Abs()), ev, l)
    {
      if callbacks.None? {
        callbacks := Some(map[]);
      }
      var calls := callbacks.value;
      var k := ArgKey(ev);
      var list := if k in calls then calls[k] else [];
      callbacks := Some(calls[k := list + [Some(l)]]);
    }

    /** `unbind(ev, callback)`, with its search loop that nulls the first match and breaks. */
    method Unbind(ev: Option<Arg>, cb: Option<Listener>)
      modifies this
      ensures Abs() == EmitterModel.Unbind(old(Abs()), ev, cb)
    {
      if Falsy(ev) {
        callbacks := Some(map[]);
        return;
      }
      if callbacks.None? {
        return;
      }
      var calls := callbacks.value;
      var k := ArgKey(ev.value);
      if cb.None? {
        callbacks := Some(calls[k := []]);
        return;
      }
      if k !in calls {
        return;
      }
      var list := calls[k];
      var i := 0;
      while i < |list|
        invariant 0 <= i <= |list|
        invariant forall j :: 0 <= j < i ==> list[j] != Some(cb.value)
        invariant Abs() == old(Abs())
      {
        if list[i] == Some(cb.value) {
          callbacks := Some(calls[k := list[i := None]]);
          break;
        }
        i := i + 1;
      }
      if i == |list| {
        assert calls[k := list] == calls;
      }
    }

    /** `trigger(eventName, data...)`: the `while (both--)` loop over the name, then 'all'. */
    method Trigger(name: string, args: seq<Value>)
      modifies this
      ensures Abs() == EmitterModel.Trigger(old(Abs()), name, args)
    {
      if callbacks.None? {
        return;
      }
      var both := 2;
      while both > 0
        invariant 0 <= both <= 2 && callbacks.Some?
        invariant both == 2 ==> Abs() == old(Abs())
        invariant both == 1 ==> Abs() == PassKey(old(Abs()), NameKey(name), args)
        invariant both == 0 ==> Abs() == EmitterModel.Trigger(old(Abs()), name, args)
      {
        both := both - 1;
        var ev := if both == 1 then NameKey(name) else Wildcard;
        var passArgs := if both == 1 then args else [Str(name)] + args;
        if ev in callbacks.value {
          RunPass(ev, passArgs, |callbacks.value[ev]|);
        }
      }
    }

    /** The loop over the array of `k`, splicing out null slots. */
    method RunPass(k: Key, args: seq<Value>, l0: int)
      requires callbacks.Some? && k in callbacks.value
      modifies this
      ensures Abs() == Pass(old(Abs()), k, args, 0, l0)
    {
      var i: int := 0;
      var l := l0;
      while i < l
        invariant 0 <= i && callbacks.Some? && k in callbacks.value
        invariant Pass(Abs(), k, args, i, l) == Pass(old(Abs()), k, args, 0, l0)
        decreases l - i
      {
        i, l := PassStep(k, args, i, l);
      }
    }

    /** One turn of that loop: a null slot is spliced out and `i`, `l` step back, a live one is called; then `i++`. */
    method PassStep(r: Key, args: seq<Value>, i: int, l: int) returns (i': int, l': int)
      requires 0 <= i < l && callbacks.Some? && r in callbacks.value
      modifies this
      ensures 0 <= i' && l' - i' < l - i && callbacks.Some? && r in callbacks.value
      ensures Pass(Abs(), r, args, i', l') == Pass(old(Abs()), r, args, i, l)
    {
      var list := callbacks.value[r];
      i', l' := i, l;
      if i >= |list| || list[i].None? {
        callbacks := Some(callbacks.value[r := Splice(list, i)]);
        i', l' := i - 1, l - 1;
      } else {
        Invoke(list[i].value, args);
      }
      i' := i' + 1;
    }

    /** `callback.apply(this, args)` for one listener slot. */
    method Invoke(l: Listener, args: seq<Value>)
      modifies this
      ensures Abs() == EmitterModel.Invoke(old(Abs()), l, args)
    {
      match l
      case User(id) =>
        log := log + [Call(id, args)];
      case Record(k, key) =>
        Mark(k, key, Head(args));
      case Watch(k) =>
        WatchAll(k);
    }

    /** `_deps[key] = {}; flag.ready = true; flag.data = data`. */
    method Mark(k: nat, key: Arg, data: Value)
      modifies this
      ensures Abs() == EmitterModel.Mark(old(Abs()), k, key, data)
    {
      if k in assigns {
        var a := assigns[k];
        assigns := assigns[k := a.(deps := a.deps[ArgKey(key) := data])];
      }
    }

    /** The listener on 'all': its readiness loop with `fire = false; break`, then the callback. */
    method WatchAll(k: nat)
      modifies this
      ensures Abs() == EmitterModel.WatchAll(old(Abs()), k)
    {
      if k !in assigns {
        return;
      }
      var a := assigns[k];
      var fire := true;
      var data := [];
      var index := 0;
      while index < |a.events|
        invariant 0 <= index <= |a.events|
        invariant fire ==> Ready(a.deps, a.events[..index]) == Some(data)
        invariant !fire ==> Ready(a.deps, a.events) == None
      {
        var key := ArgKey(a.events[index]);
        assert a.events[..index + 1][..index] == a.events[..index];
        if key in a.deps {
          data := data + [a.deps[key]];
        } else {
          fire := false;
          break;
        }
        index := index + 1;
      }
      if fire {
        assert a.events[..index] == a.events;
        log := log + [Call(a.callback, data)];
      }
    }

    /** `assign(events..., cb)`: split off the callback, bind each event, then 'all'. */
    method Assign(args: seq<Arg>)
      requires |args| >= 1 && args[|args| - 1].Fn?
      modifies this
      ensures Abs() == EmitterModel.Assign(old(Abs()), args)
    {
      var events := args[..|args| - 1];
      var callback := args[|args| - 1].id;
      var k := nextId;
      nextId := k + 1;
      assigns := assigns[k := AssignState(events, callback, map[])];
      BindRecordsLoop(k, events);
      Bind(Name("all"), Watch(k));
    }

    /** `for (index = 0; index < length; index++) bind(args[index])`. */
    method BindRecordsLoop(k: nat, events: seq<Arg>)
      modifies this
      ensures Abs() == BindRecords(old(Abs()), k, events, 0)
    {
      var index := 0;
      while index < |events|
        invariant 0 <= index <= |events|
        invariant BindRecords(Abs(), k, events, index) == BindRecords(old(Abs()), k, events, 0)
      {
        Bind(events[index], Record(k, events[index]));
        index := index + 1;
      }
    }
  }
}

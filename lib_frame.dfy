/**
 * What a `trigger` of lib/eventproxy.js can do to the registry: no listener
 * array is allocated during a pass, and `_callbacks` either stays the same
 * object or is replaced by an empty one (`fail`'s `unbind()`). Hence every
 * operation keeps the registry well formed.
 */
module LibFrame {
  import opened Common
  import opened Slots
  import opened LibModel

  /** `r` has the same arrays as `st` (possibly with other contents) and the same or an emptied map. */
  ghost predicate Keeps(st: State, r: State) {
    |r.lists| == |st.lists| && (r.callbacks == st.callbacks || r.callbacks == map[])
  }

  lemma KeepsValid(st: State, r: State)
    requires Valid(st) && Keeps(st, r)
    ensures Valid(r)
  {
  }

  lemma {:induction false} DispatchKeeps(st: State, k: Key, args: seq<Value>, depth: nat)
    ensures Keeps(st, Dispatch(st, k, args, depth))
    decreases depth, 3
  {
    var calls := st.callbacks;
    var st1 := if k in calls then Pass(st, calls[k], args, 0, |Deref(st.lists, calls[k])|, depth) else st;
    if k in calls {
      PassKeeps(st, calls[k], args, 0, |Deref(st.lists, calls[k])|, depth);
    }
    if Wildcard in calls {
      PassKeeps(st1, calls[Wildcard], [EventName(k)] + args, 0, |Deref(st1.lists, calls[Wildcard])|, depth);
    }
  }

  lemma {:induction false} PassKeeps(st: State, r: nat, args: seq<Value>, i: nat, l: int, depth: nat)
    ensures Keeps(st, Pass(st, r, args, i, l, depth))
    decreases depth, 2, l - i
  {
    if i < l {
      var list := Deref(st.lists, r);
      if i >= |list| || list[i].None? {
        PassKeeps(st.(lists := Store(st.lists, r, Splice(list, i))), r, args, i, l - 1, depth);
      } else {
        InvokeKeeps(st, list[i].value, args, depth);
        PassKeeps(Invoke(st, list[i].value, args, depth), r, args, i + 1, l, depth);
      }
    }
  }

  lemma {:induction false} InvokeKeeps(st: State, l: Listener, args: seq<Value>, depth: nat)
    ensures Keeps(st, Invoke(st, l, args, depth))
    decreases depth, 1, l
  {
    match l
    case User(id) =>
    case Wrapper(w, ev, inner) =>
      InvokeKeeps(st, inner, args, depth);
    case Record(k, key) =>
    case Check(k) =>
      CheckKeeps(st, k, Head(args));
    case Counter(k) =>
      CountKeeps(st, k, Head(args), Second(args));
    case Forward(events, name, target) =>
      if depth > 0 {
        DispatchKeeps(st, target, [AnyRecord(Head(args), name)], depth - 1);
      }
    case Excluding(except, cb) =>
    case FailHandler(cb) =>
  }

  lemma CheckKeeps(st: State, k: nat, event: Value)
    ensures Keeps(st, CheckAll(st, k, event))
  {
  }

  lemma CountKeeps(st: State, k: nat, name: Value, data: Value)
    ensures Keeps(st, CountFiring(st, k, name, data))
  {
    if k in st.afters {
      var a := st.afters[k];
      if name == EventName(Ev(a.event)) {
        var a' := a.(times := a.times - 1, firedData := a.firedData + [data]);
        UnbindCounterKeeps(st.(afters := st.afters[k := a']), k, a.callback, [Arr(a'.firedData)]);
      } else if name == EventName(GroupSignal(a.event)) {
        var groups :=
          if a.event in st.afterGroups && data.GroupItem? && data.index >= 0 then
            var g := st.afterGroups[a.event];
            st.afterGroups[a.event := g.(results := Put(g.results, data.index, data.result))]
          else st.afterGroups;
        var results := if a.event in groups then groups[a.event].results else [];
        UnbindCounterKeeps(st.(afters := st.afters[k := a.(times := a.times - 1)], afterGroups := groups), k, a.callback, [Arr(results)]);
      }
    }
  }

  /** `after`'s listener unbinding itself and calling back. */
  lemma UnbindCounterKeeps(st: State, k: nat, cb: nat, args: seq<Value>)
    ensures Keeps(st, Log(RemoveListener(st, Some(Wildcard), Some(Counter(k))), cb, args))
  {
  }

  /** `trigger` keeps the registry well formed. */
  lemma TriggerValid(st: State, name: string, args: seq<Value>)
    requires Valid(st)
    ensures Valid(Trigger(st, name, args))
  {
    DispatchKeeps(st, Ev(name), args, 1);
  }

  lemma {:induction false} BindRecordsValid(st: State, k: nat, events: seq<Key>, isOnce: bool, i: nat)
    requires Valid(st)
    ensures Valid(BindRecords(st, k, events, isOnce, i))
    decreases |events| - i
  {
    if i < |events| {
      var st1 := if isOnce then Once(st, events[i], Record(k, events[i])) else AddListener(st, events[i], Record(k, events[i]));
      BindRecordsValid(st1, k, events, isOnce, i + 1);
    }
  }

  lemma ArmValid(st: State, events: seq<Key>, callback: nat, isOnce: bool)
    requires Valid(st)
    ensures Valid(Arm(st, events, callback, isOnce))
  {
    BindRecordsValid(Opened(st, events, callback, isOnce), st.nextId, events, isOnce, 0);
  }

  lemma {:induction false} BindForwardersValid(st: State, events: seq<string>, target: Key, i: nat)
    requires Valid(st)
    ensures Valid(BindForwarders(st, events, target, i))
    decreases |events| - i
  {
    if i < |events| {
      BindForwardersValid(AddListener(st, Ev(events[i]), Forward(events, events[i], target)), events, target, i + 1);
    }
  }

  lemma AnyValid(st: State, events: seq<string>, cb: nat)
    requires Valid(st)
    ensures Valid(Any(st, events, cb))
  {
    BindForwardersValid(Once(st, AnyOf(events), User(cb)), events, AnyOf(events), 0);
  }
}

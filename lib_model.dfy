/**
 * lib/eventproxy.js, the current version, as functions over the proxy's state.
 *
 * The proxy's `_callbacks` object maps each event name to a JavaScript array of
 * listener slots. Arrays are shared by reference: `fail`'s handler replaces
 * `_callbacks` by a new empty object while `trigger` is still iterating, and
 * the running `trigger` keeps working on the old object and arrays. The state
 * therefore holds every array ever allocated (`lists`) and maps keys to
 * indices into it (`callbacks`), as the JavaScript heap does.
 *
 * The class in lib_proxy.dfy runs the same operations with the source's loops
 * and is proved to compute exactly these functions.
 */
module LibModel {
  import opened Common
  import opened Slots

  /**
   * The functions the proxy can hold in a listener slot. The library's own
   * closures are constructors here, so the dispatcher interprets them;
   * each closure created by a call carries the identity it got at creation.
   */
  datatype Listener =
    | User(id: nat)                                  // a callback of the program using the proxy
    | Wrapper(wrapper: nat, ev: Key, inner: Listener) // `once`'s wrapper around `inner`, bound on `ev`
    | Record(inst: nat, key: Key)                    // `_assign`'s per-event listener (`bind(key)`)
    | Check(inst: nat)                               // `_assign`'s wildcard listener `_all`
    | Counter(inst: nat)                             // `after`'s wildcard listener `all`
    | Forward(events: seq<string>, name: string, target: Key) // `any`'s per-event listener (`_bind(key)`), re-triggering `target`
    | Excluding(except: string, cb: nat)             // `not`'s wildcard listener
    | FailHandler(cb: nat)                           // `fail`'s error handler

  type ListenerList = seq<Option<Listener>>

  /** The closure variables of one `_assign` call (`all` or `tail`). */
  datatype AssignState = AssignState(events: seq<Key>, callback: nat, isOnce: bool, times: int, flag: set<Key>)

  /** The closure variables of one `after` call. */
  datatype AfterState = AfterState(event: string, times: int, firedData: seq<Value>, callback: nat)

  /** `_after[event + '_group']`: the next free slot index and the ordered results. */
  datatype GroupState = GroupState(index: int, results: seq<Value>)

  datatype State = State(
    lists: seq<ListenerList>,             // every listener array allocated so far
    callbacks: map<Key, nat>,             // `_callbacks`: key -> index of its array in `lists`
    fired: map<Key, Value>,               // `_fired[key].data`
    afterGroups: map<string, GroupState>, // `_after`
    assigns: map<nat, AssignState>,       // state of each `_assign` call, by its identity
    afters: map<nat, AfterState>,         // state of each `after` call, by its identity
    nextId: nat,                          // identity of the next closure created
    log: seq<Call>,                       // user callbacks invoked so far, in order
    overflow: bool)                       // a nested trigger went past the nesting bound (see `Invoke`)

  /**
   * `ALL_EVENT`, the name under which lib/eventproxy.js keeps its wildcard
   * listeners. The model keeps them under the key `Wildcard` instead, so a
   * program that binds or triggers this name directly is outside the model;
   * the properties about runs exclude it from the names they bind.
   */
  const AllEvent: string := "__all__"

  /** `new EventProxy()`. */
  function Empty(): State {
    State([], map[], map[], map[], map[], map[], 0, [], false)
  }

  /** The array at index `r`; an index that was never allocated reads as an empty array. */
  function Deref(lists: seq<ListenerList>, r: nat): ListenerList {
    if r < |lists| then lists[r] else []
  }

  /** Overwrite the array at index `r` (no effect on an index never allocated). */
  function Store(lists: seq<ListenerList>, r: nat, s: ListenerList): (ls: seq<ListenerList>)
    ensures |ls| == |lists|
    ensures r < |lists| ==> ls == lists[r := s]
  {
    if r < |lists| then lists[r := s] else lists
  }

  /** `_callbacks[k]`, with an absent key read as an empty list. */
  function ListOf(st: State, k: Key): ListenerList {
    if k in st.callbacks then Deref(st.lists, st.callbacks[k]) else []
  }

  /** Every key refers to an allocated array and no two keys share one. */
  ghost predicate Valid(st: State) {
    && (forall k :: k in st.callbacks ==> st.callbacks[k] < |st.lists|)
    && (forall k1, k2 :: k1 in st.callbacks && k2 in st.callbacks && k1 != k2 ==> st.callbacks[k1] != st.callbacks[k2])
  }

  /** A JavaScript event name that is falsy: only the empty string. */
  predicate FalsyName(k: Key) {
    k == Ev("")
  }

  function Log(st: State, fn: nat, args: seq<Value>): State {
    st.(log := st.log + [Call(fn, args)])
  }

  // ---------------------------------------------------------------------
  // Registry
  // ---------------------------------------------------------------------

  /** `addListener(ev, callback)` (aliases `bind`, `on`, `subscribe`; `bindForAll` for the wildcard). */
  function AddListener(st: State, k: Key, l: Listener): (r: State)
    ensures r == st.(lists := r.lists, callbacks := r.callbacks)
    ensures r.callbacks.Keys == st.callbacks.Keys + {k}
    ensures Valid(st) ==> Valid(r)
    ensures Valid(st) ==> ListOf(r, k) == ListOf(st, k) + [Some(l)]
    ensures Valid(st) ==> forall k' :: k' != k ==> ListOf(r, k') == ListOf(st, k')
  {
    if k in st.callbacks && st.callbacks[k] < |st.lists| then
      var ref := st.callbacks[k];
      st.(lists := st.lists[ref := st.lists[ref] + [Some(l)]])
    else
      st.(lists := st.lists + [[Some(l)]], callbacks := st.callbacks[k := |st.lists|])
  }

  /** `headbind(ev, callback)`: as `addListener`, but at the head of the list. */
  function Headbind(st: State, k: Key, l: Listener): (r: State)
    ensures r == st.(lists := r.lists, callbacks := r.callbacks)
    ensures r.callbacks.Keys == st.callbacks.Keys + {k}
    ensures Valid(st) ==> Valid(r)
    ensures Valid(st) ==> ListOf(r, k) == [Some(l)] + ListOf(st, k)
    ensures Valid(st) ==> forall k' :: k' != k ==> ListOf(r, k') == ListOf(st, k')
  {
    if k in st.callbacks && st.callbacks[k] < |st.lists| then
      var ref := st.callbacks[k];
      st.(lists := st.lists[ref := [Some(l)] + st.lists[ref]])
    else
      st.(lists := st.lists + [[Some(l)]], callbacks := st.callbacks[k := |st.lists|])
  }

  /**
   * `removeListener(eventname, callback)` (alias `unbind`; `removeAllListeners(ev)`
   * passes no callback; `unbindForAll(cb)` passes the wildcard key).
   * A missing or falsy name drops the whole map; a name alone gets a fresh
   * empty array; a name and a callback null every slot holding the callback.
   */
  function RemoveListener(st: State, name: Option<Key>, cb: Option<Listener>): (r: State)
    ensures r == st.(lists := r.lists, callbacks := r.callbacks)
    ensures (name.None? || FalsyName(name.value)) ==> r.callbacks == map[] && r.lists == st.lists
    ensures name.Some? && !FalsyName(name.value) && cb.Some? ==> r.callbacks == st.callbacks && |r.lists| == |st.lists|
    ensures Valid(st) ==> Valid(r)
    ensures Valid(st) && name.Some? && !FalsyName(name.value) && cb.None? ==>
      name.value in r.callbacks && ListOf(r, name.value) == [] && forall k' :: k' != name.value ==> ListOf(r, k') == ListOf(st, k')
    ensures Valid(st) && name.Some? && !FalsyName(name.value) && cb.Some? ==>
      ListOf(r, name.value) == NullAll(ListOf(st, name.value), cb.value) && forall k' :: k' != name.value ==> ListOf(r, k') == ListOf(st, k')
  {
    if name.None? || FalsyName(name.value) then
      st.(callbacks := map[])
    else if cb.None? then
      st.(lists := st.lists + [[]], callbacks := st.callbacks[name.value := |st.lists|])
    else if name.value in st.callbacks then
      var ref := st.callbacks[name.value];
      st.(lists := Store(st.lists, ref, NullAll(Deref(st.lists, ref), cb.value)))
    else
      st
  }

  // ---------------------------------------------------------------------
  // Dispatcher
  // ---------------------------------------------------------------------

  /**
   * `trigger` (aliases `emit`, `fire`) of key `k`: the arrays of `k` and of the
   * wildcard are taken from `_callbacks` as it is on entry (`calls`); the
   * wildcard listeners receive the event name before the arguments.
   * `depth` bounds the nesting of `any`'s re-triggering (see `Invoke`).
   */
  function Dispatch(st: State, k: Key, args: seq<Value>, depth: nat): State
    decreases depth, 3
  {
    var calls := st.callbacks;
    var st1 := if k in calls then Pass(st, calls[k], args, 0, |Deref(st.lists, calls[k])|, depth) else st;
    if Wildcard in calls then
      Pass(st1, calls[Wildcard], [EventName(k)] + args, 0, |Deref(st1.lists, calls[Wildcard])|, depth)
    else st1
  }

  /**
   * The `for (i = 0, l = list.length; i < l; i++)` loop over the array at
   * `r`: a null slot (or one past the end, read as undefined) is spliced out
   * and `i`, `l` both step back; a live slot is invoked. The array is re-read
   * at every step, since the listeners may null its slots.
   */
  function Pass(st: State, r: nat, args: seq<Value>, i: nat, l: int, depth: nat): State
    decreases depth, 2, l - i
  {
    if i >= l then st
    else
      var list := Deref(st.lists, r);
      if i >= |list| || list[i].None? then
        Pass(st.(lists := Store(st.lists, r, Splice(list, i))), r, args, i, l - 1, depth)
      else
        Pass(Invoke(st, list[i].value, args, depth), r, args, i + 1, l, depth)
  }

  /**
   * Calling listener `l` with `args`. `any`'s forwarder triggers its target
   * key at `depth - 1`; at depth 0 it only records that the nesting bound was
   * passed (`overflow`), where JavaScript would recurse further. Forwarders
   * are bound on ordinary event names and target an `AnyOf` key, so from the
   * top-level depth 1 the bound is not reached by the forwarders `Any` binds.
   */
  function Invoke(st: State, l: Listener, args: seq<Value>, depth: nat): State
    decreases depth, 1, l
  {
    match l
    case User(id) => Log(st, id, args)
    case Wrapper(w, ev, inner) =>
      // `callback.apply(self, arguments); self.unbind(ev, wrapper);`
      RemoveListener(Invoke(st, inner, args, depth), Some(ev), Some(l))
    case Record(k, key) => RecordFiring(st, k, key, Head(args))
    case Check(k) => CheckAll(st, k, Head(args))
    case Counter(k) => CountFiring(st, k, Head(args), Second(args))
    case Forward(events, name, target) =>
      if depth == 0 then st.(overflow := true)
      else Dispatch(st, target, [AnyRecord(Head(args), name)], depth - 1)
    case Excluding(except, cb) =>
      if Head(args) != EventName(Ev(except)) then Log(st, cb, [Second(args)]) else st
    case FailHandler(cb) =>
      // `that.unbind(); callback.apply(null, arguments);`
      Log(RemoveListener(st, None, None), cb, args)
  }

  /** `_assign`'s `bind(key)` listener: store the payload in `_fired`, flag the key the first time. */
  function RecordFiring(st: State, k: nat, key: Key, data: Value): (r: State)
    ensures r.fired == st.fired[key := data]
    ensures r == st.(fired := r.fired, assigns := r.assigns)
  {
    var st1 := st.(fired := st.fired[key := data]);
    if k in st.assigns && key !in st.assigns[k].flag then
      var a := st.assigns[k];
      st1.(assigns := st.assigns[k := a.(flag := a.flag + {key}, times := a.times + 1)])
    else st1
  }

  /** `_fired[events[i]].data` for every listed event, in listed order (the loop in `_all`). */
  function FiredData(fired: map<Key, Value>, events: seq<Key>): (data: seq<Value>)
    ensures |data| == |events|
    ensures forall i :: 0 <= i < |events| && events[i] in fired ==> data[i] == fired[events[i]]
  {
    seq(|events|, i requires 0 <= i < |events| => if events[i] in fired then fired[events[i]] else Undefined)
  }

  /**
   * `_assign`'s wildcard listener `_all(event)`: once every listed event has
   * been flagged, and if the event just fired is one of them, call back
   * with the stored payloads; in `all` mode unbind itself first.
   */
  function CheckAll(st: State, k: nat, event: Value): State {
    if k !in st.assigns then st
    else
      var a := st.assigns[k];
      if a.times < |a.events| then st
      else if !(event.EventName? && event.key in a.flag) then st
      else
        var data := FiredData(st.fired, a.events);
        var st1 := if a.isOnce then RemoveListener(st, Some(Wildcard), Some(Check(k))) else st;
        Log(st1, a.callback, data)
  }

  /**
   * `after`'s wildcard listener `all(name, data)`: count a firing of the
   * event (collecting its payload) or of its group signal (storing the
   * result at its index); at the last one, unbind and call back.
   */
  function CountFiring(st: State, k: nat, name: Value, data: Value): State {
    if k !in st.afters then st
    else
      var a := st.afters[k];
      if name == EventName(Ev(a.event)) then CountEvent(st, k, data)
      else if name == EventName(GroupSignal(a.event)) then CountGroupItem(st, k, data)
      else st
  }

  /** `after`'s listener on a firing of its event: push the data, count down. */
  function CountEvent(st: State, k: nat, data: Value): State
    requires k in st.afters
  {
    var a := st.afters[k];
    var a' := a.(times := a.times - 1, firedData := a.firedData + [data]);
    var st1 := st.(afters := st.afters[k := a']);
    if a'.times < 1 then Log(RemoveListener(st1, Some(Wildcard), Some(Counter(k))), a.callback, [Arr(a'.firedData)])
    else st1
  }

  /** `after`'s listener on a `group` signal: store the result at its index, count down. */
  function CountGroupItem(st: State, k: nat, data: Value): State
    requires k in st.afters
  {
    var a := st.afters[k];
    var groups :=
      if a.event in st.afterGroups && data.GroupItem? && data.index >= 0 then
        var g := st.afterGroups[a.event];
        st.afterGroups[a.event := g.(results := Put(g.results, data.index, data.result))]
      else st.afterGroups;
    var a' := a.(times := a.times - 1);
    var st1 := st.(afters := st.afters[k := a'], afterGroups := groups);
    var results := if a.event in groups then groups[a.event].results else [];
    if a'.times < 1 then Log(RemoveListener(st1, Some(Wildcard), Some(Counter(k))), a.callback, [Arr(results)])
    else st1
  }

  /** `trigger(eventname, args...)` as called by the program: top-level depth. */
  function Trigger(st: State, name: string, args: seq<Value>): State {
    Dispatch(st, Ev(name), args, 1)
  }

  /** A program's sequence of `trigger` calls, applied in order. */
  function Run(st: State, t: seq<Firing>): State {
    if t == [] then st else Trigger(Run(st, t[..|t| - 1]), t[|t| - 1].name, t[|t| - 1].args)
  }

  /** `once(ev, callback)`: bind a fresh wrapper that unbinds itself after calling `callback`. */
  function Once(st: State, k: Key, inner: Listener): (r: State)
    ensures r == st.(lists := r.lists, callbacks := r.callbacks, nextId := st.nextId + 1)
    ensures r.callbacks.Keys == st.callbacks.Keys + {k}
    ensures Valid(st) ==> Valid(r) && ListOf(r, k) == ListOf(st, k) + [Some(Wrapper(st.nextId, k, inner))]
    ensures Valid(st) ==> forall k' :: k' != k ==> ListOf(r, k') == ListOf(st, k')
  {
    AddListener(st.(nextId := st.nextId + 1), k, Wrapper(st.nextId, k, inner))
  }

  /** `immediate(ev, callback, data)` (alias `asap`): bind, then trigger with `data`. */
  function Immediate(st: State, ev: string, cb: Listener, data: Value): State {
    Trigger(AddListener(st, Ev(ev), cb), ev, [data])
  }

  // ---------------------------------------------------------------------
  // Combinators
  // ---------------------------------------------------------------------

  /**
   * `_assign(events..., callback, isOnce)`, given the flattened arguments
   * before `isOnce`: fewer than three arguments in all, or a callback that
   * is not a function, binds nothing.
   */
  function Assign(st: State, args: seq<Arg>, isOnce: bool): State {
    if |args| + 1 < 3 then st
    else if !args[|args| - 1].Fn? then st
    else Arm(st, KeysOf(args[..|args| - 1]), args[|args| - 1].id, isOnce)
  }

  /** The part of `_assign` past its argument checks: a new instance, its per-event listeners, then `_all`. */
  function Arm(st: State, events: seq<Key>, callback: nat, isOnce: bool): State {
    AddListener(BindRecords(Opened(st, events, callback, isOnce), st.nextId, events, isOnce, 0), Wildcard, Check(st.nextId))
  }

  /** `var _all`, `var times`, `var flag`: the closure state of a new `_assign` instance. */
  function Opened(st: State, events: seq<Key>, callback: nat, isOnce: bool): State {
    st.(nextId := st.nextId + 1, assigns := st.assigns[st.nextId := AssignState(events, callback, isOnce, 0, {})])
  }

  /** The loop `for (index = 0; index < length; index++) bind(events[index])`. */
  function BindRecords(st: State, k: nat, events: seq<Key>, isOnce: bool, i: nat): State
    decreases |events| - i
  {
    if i >= |events| then st
    else
      var st1 := if isOnce then Once(st, events[i], Record(k, events[i])) else AddListener(st, events[i], Record(k, events[i]));
      BindRecords(st1, k, events, isOnce, i + 1)
  }

  /** `all(events..., callback)` (alias `assign`). */
  function All(st: State, args: seq<Arg>): State {
    Assign(st, args, true)
  }

  /** `tail(events..., callback)` (aliases `assignAll`, `assignAlways`). */
  function Tail(st: State, args: seq<Arg>): State {
    Assign(st, args, false)
  }

  /** `after(eventname, times, callback)`. */
  function After(st: State, e: string, times: int, cb: nat): State {
    if times == 0 then Log(st, cb, [Arr([])])
    else
      var k := st.nextId;
      var st1 := st.(nextId := k + 1,
                     afterGroups := st.afterGroups[e := GroupState(0, [])],
                     afters := st.afters[k := AfterState(e, times, [], cb)]);
      AddListener(st1, Wildcard, Counter(k))
  }

  /** The function `group` returns: its event, its reserved index and its optional transform. */
  datatype GroupHandle = GroupHandle(event: string, index: int, transform: Option<nat>)

  /**
   * `group(eventname, callback)`: take the next index of `_after[e + '_group']`.
   * Without a prior `after(e, N > 0, ...)` that entry is undefined and reading
   * its index throws; that is `None` here.
   */
  function Group(st: State, e: string, transform: Option<nat>): Option<(State, GroupHandle)> {
    if e !in st.afterGroups then None
    else
      var g := st.afterGroups[e];
      Some((st.(afterGroups := st.afterGroups[e := g.(index := g.index + 1)]), GroupHandle(e, g.index, transform)))
  }

  /**
   * Calling the function `group` returned with `callArgs` (`err, data, ...`).
   * A truthy error re-emits every argument on 'error'; otherwise the result
   * (the transform's return value `transformed`, or `data`) goes out on the
   * group signal with the handle's index.
   */
  function CallGroup(st: State, h: GroupHandle, callArgs: seq<Value>, transformed: Value): State {
    if Truthy(Head(callArgs)) then Dispatch(st, Ev("error"), callArgs, 1)
    else
      var st1 := if h.transform.Some? then Log(st, h.transform.value, Rest(callArgs)) else st;
      var result := if h.transform.Some? then transformed else Second(callArgs);
      Dispatch(st1, GroupSignal(h.event), [GroupItem(h.index, result)], 1)
  }

  /** `any(events..., callback)`: `once` on the synthetic key, and a forwarder on every listed event. */
  function Any(st: State, events: seq<string>, cb: nat): State {
    BindForwarders(Once(st, AnyOf(events), User(cb)), events, AnyOf(events), 0)
  }

  /** The loop `for (index = 0; index < events.length; index++) _bind(events[index])`. */
  function BindForwarders(st: State, events: seq<string>, target: Key, i: nat): State
    decreases |events| - i
  {
    if i >= |events| then st
    else BindForwarders(AddListener(st, Ev(events[i]), Forward(events, events[i], target)), events, target, i + 1)
  }

  /** `not(eventname, callback)`. */
  function Not(st: State, e: string, cb: nat): State {
    AddListener(st, Wildcard, Excluding(e, cb))
  }

  /** The first argument of `done`: an event name or a function. */
  datatype Handler = EventHandler(name: string) | FnHandler(id: nat)

  /**
   * Calling the function `done(handler, callback)` returned, with `callArgs`.
   * `transformed` stands for what the user's `callback` returns.
   */
  function CallDone(st: State, handler: Handler, transform: Option<nat>, callArgs: seq<Value>, transformed: Value): State {
    if Truthy(Head(callArgs)) then Dispatch(st, Ev("error"), callArgs, 1)
    else
      var args := Rest(callArgs);
      match handler
      case EventHandler(name) =>
        if transform.Some? then Trigger(Log(st, transform.value, args), name, [transformed])
        else Trigger(st, name, args)
      case FnHandler(id) =>
        if |callArgs| <= 2 then Log(st, id, [Second(callArgs)]) else Log(st, id, args)
  }

  /** `fail(callback)`: a `once` handler on 'error' that unbinds everything, then calls back. */
  function Fail(st: State, cb: nat): State {
    Once(st, Ev("error"), FailHandler(cb))
  }

  /** `throw(args...)`: `emit('error', args...)`. */
  function Throw(st: State, args: seq<Value>): State {
    Trigger(st, "error", args)
  }

  /**
   * `EventProxy.create(args...)`: a new proxy; when the last two arguments
   * are both functions, the last is handed to `fail`; the rest go to `assign`.
   */
  function Create(args: seq<Arg>): State {
    var ep := Empty();
    if |args| == 0 then ep
    else if args[|args| - 1].Fn? && |args| >= 2 && args[|args| - 2].Fn? then
      All(Fail(ep, args[|args| - 1].id), args[..|args| - 1])
    else
      All(ep, args)
  }
}

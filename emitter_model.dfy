/**
 * event.emitter.js, the earliest version, as functions over the proxy's
 * state.
 *
 * `_callbacks` does not exist until the first `bind` (or a `unbind` with a
 * falsy name) creates it. No listener this version installs itself calls
 * `bind` or `unbind`, so no array is ever reached from two places while
 * it changes: the map is kept by value. The wildcard is the ordinary name
 * 'all' (`NameKey`). The class in emitter_proxy.dfy runs the same
 * operations with the source's loops and is proved to compute these
 * functions.
 */
module EmitterModel {
  import opened Common
  import opened Slots

  /** The functions the proxy can hold in a listener slot. */
  datatype Listener =
    | User(id: nat)                 // a callback of the program using the proxy
    | Record(inst: nat, key: Arg)   // `assign`'s `bind(key)` listener, storing its first argument
    | Watch(inst: nat)              // `assign`'s listener on 'all', checking readiness

  type ListenerList = seq<Option<Listener>>

  /** The closure variables of one `assign` call; `_deps[key]` exists exactly when the event is ready. */
  datatype AssignState = AssignState(events: seq<Arg>, callback: nat, deps: map<Key, Value>)

  datatype State = State(
    callbacks: Option<map<Key, ListenerList>>,  // `this._callbacks`, absent until created
    assigns: map<nat, AssignState>,             // state of each `assign` call, by its identity
    nextId: nat,                                // identity of the next `assign` call
    log: seq<Call>)                             // user callbacks invoked so far, in order

  /** `new EventProxy()`: no `_callbacks` yet. */
  function Empty(): State {
    State(None, map[], 0, [])
  }

  /** `this._callbacks[k]`, with no map or an absent key read as an empty list. */
  function ListOf(st: State, k: Key): ListenerList {
    if st.callbacks.Some? && k in st.callbacks.value then st.callbacks.value[k] else []
  }

  /** The keys bound so far: none while there is no map. */
  function Bound(st: State): set<Key> {
    if st.callbacks.Some? then st.callbacks.value.Keys else {}
  }

  predicate Falsy(ev: Option<Arg>) {
    ev.None? || ev.value == Name("")
  }

  function Log(st: State, fn: nat, args: seq<Value>): State {
    st.(log := st.log + [Call(fn, args)])
  }

  // ---------------------------------------------------------------------
  // Registry
  // ---------------------------------------------------------------------

  /** `bind(ev, callback)`: create the map and the array when absent, then push. */
  function Bind(st: State, ev: Arg, l: Listener): (r: State)
    ensures r == st.(callbacks := r.callbacks)
    ensures r.callbacks.Some? && Bound(r) == Bound(st) + {ArgKey(ev)}
    ensures ListOf(r, ArgKey(ev)) == ListOf(st, ArgKey(ev)) + [Some(l)]
    ensures forall k :: k != ArgKey(ev) ==> ListOf(r, k) == ListOf(st, k)
  {
    var calls := if st.callbacks.Some? then st.callbacks.value else map[];
    var k := ArgKey(ev);
    var list := if k in calls then calls[k] else [];
    st.(callbacks := Some(calls[k := list + [Some(l)]]))
  }

  /**
   * `unbind(ev, callback)`: a falsy name replaces `_callbacks` by an empty
   * object (creating it if need be); with no map nothing else happens; a
   * name alone gets a fresh empty array; a name and a callback null the
   * FIRST slot holding the callback; an unbound name with a callback
   * changes nothing.
   */
  function Unbind(st: State, ev: Option<Arg>, cb: Option<Listener>): (r: State)
    ensures r == st.(callbacks := r.callbacks)
    ensures Falsy(ev) ==> r.callbacks == Some(map[])
    ensures !Falsy(ev) && st.callbacks.None? ==> r == st
    ensures !Falsy(ev) && st.callbacks.Some? && cb.None? ==>
      Bound(r) == Bound(st) + {ArgKey(ev.value)} && ListOf(r, ArgKey(ev.value)) == []
    ensures !Falsy(ev) && cb.Some? ==>
      Bound(r) == Bound(st) && ListOf(r, ArgKey(ev.value)) == NullFirst(ListOf(st, ArgKey(ev.value)), cb.value)
    ensures !Falsy(ev) ==> forall k :: k != ArgKey(ev.value) ==> ListOf(r, k) == ListOf(st, k)
  {
    if Falsy(ev) then st.(callbacks := Some(map[]))
    else if st.callbacks.None? then st
    else
      var calls := st.callbacks.value;
      var k := ArgKey(ev.value);
      if cb.None? then st.(callbacks := Some(calls[k := []]))
      else if k !in calls then st
      else st.(callbacks := Some(calls[k := NullFirst(calls[k], cb.value)]))
  }

  // ---------------------------------------------------------------------
  // Dispatcher
  // ---------------------------------------------------------------------

  /**
   * `trigger(eventName, data...)`: nothing without a map; otherwise the
   * array of the name with the arguments after it, then the array of
   * 'all' with the name first.
   */
  function Trigger(st: State, name: string, args: seq<Value>): (r: State)
    ensures st.callbacks.None? ==> r == st
    ensures Bound(r) == Bound(st)
  {
    if st.callbacks.None? then st
    else
      var st1 := PassKey(st, NameKey(name), args);
      PassKey(st1, Wildcard, [Str(name)] + args)
  }

  /** `if (list = calls[ev])` followed by the loop over it. */
  function PassKey(st: State, k: Key, args: seq<Value>): (r: State)
    requires st.callbacks.Some?
    ensures r.callbacks.Some? && Bound(r) == Bound(st)
  {
    if k in st.callbacks.value then Pass(st, k, args, 0, |ListOf(st, k)|) else st
  }

  /** Overwrite the array of a bound key. */
  function SetList(st: State, k: Key, s: ListenerList): (r: State)
    requires st.callbacks.Some?
    ensures r.callbacks.Some?
  {
    st.(callbacks := Some(st.callbacks.value[k := s]))
  }

  /**
   * The loop `for (i = 0, l = list.length; i < l; i++)` over the array of
   * `k`: a null slot is spliced out and `i`, `l` both step back; a live
   * slot is called.
   */
  function Pass(st: State, k: Key, args: seq<Value>, i: nat, l: int): (r: State)
    requires st.callbacks.Some? && k in st.callbacks.value
    ensures r.callbacks.Some? && r.callbacks.value.Keys == st.callbacks.value.Keys
    decreases l - i
  {
    if i >= l then st
    else
      var list := ListOf(st, k);
      if i >= |list| || list[i].None? then Pass(SetList(st, k, Splice(list, i)), k, args, i, l - 1)
      else Pass(Invoke(st, list[i].value, args), k, args, i + 1, l)
  }

  /** `callback.apply(this, args)`: no listener of this version touches `_callbacks`. */
  function Invoke(st: State, l: Listener, args: seq<Value>): (r: State)
    ensures r.callbacks == st.callbacks && r.nextId == st.nextId
  {
    match l
    case User(id) => Log(st, id, args)
    case Record(k, key) => Mark(st, k, key, Head(args))
    case Watch(k) => WatchAll(st, k)
  }

  /** `assign`'s `bind(key)` listener: `_deps[key] = {ready: true, data: data}` with its first argument. */
  function Mark(st: State, k: nat, key: Arg, data: Value): (r: State)
    ensures r == st.(assigns := r.assigns)
    ensures k in st.assigns ==> r.assigns == st.assigns[k := st.assigns[k].(deps := st.assigns[k].deps[ArgKey(key) := data])]
  {
    if k in st.assigns then
      var a := st.assigns[k];
      st.(assigns := st.assigns[k := a.(deps := a.deps[ArgKey(key) := data])])
    else st
  }

  /**
   * The readiness loop of `assign`'s listener on 'all': the stored data of
   * each listed event in listed order, or nothing as soon as one is not
   * ready.
   */
  function Ready(deps: map<Key, Value>, events: seq<Arg>): (r: Option<seq<Value>>)
    ensures r.Some? <==> forall i :: 0 <= i < |events| ==> ArgKey(events[i]) in deps
    ensures r.Some? ==> |r.value| == |events| && forall i :: 0 <= i < |events| ==> r.value[i] == deps[ArgKey(events[i])]
  {
    if events == [] then Some([])
    else
      var n := |events| - 1;
      var front := Ready(deps, events[..n]);
      var key := ArgKey(events[n]);
      if front.Some? && key in deps then Some(front.value + [deps[key]]) else None
  }

  /** `assign`'s listener on 'all': call back with the stored data once every listed event is ready. */
  function WatchAll(st: State, k: nat): (r: State)
    ensures r == st.(log := r.log)
  {
    if k !in st.assigns then st
    else
      var a := st.assigns[k];
      match Ready(a.deps, a.events)
      case Some(data) => Log(st, a.callback, data)
      case None => st
  }

  /** A program's sequence of `trigger` calls, applied in order. */
  function Run(st: State, t: seq<Firing>): State {
    if t == [] then st else Trigger(Run(st, t[..|t| - 1]), t[|t| - 1].name, t[|t| - 1].args)
  }

  // ---------------------------------------------------------------------
  // assign
  // ---------------------------------------------------------------------

  /**
   * `assign(events..., cb)`: the last argument is the callback and every
   * earlier one an event; a `bind(key)` listener per event, then a
   * listener on 'all'. Nothing is ever unbound.
   */
  function Assign(st: State, args: seq<Arg>): (r: State)
    requires |args| >= 1 && args[|args| - 1].Fn?
    ensures r.nextId == st.nextId + 1 && r.log == st.log
    ensures r.assigns == st.assigns[st.nextId := AssignState(args[..|args| - 1], args[|args| - 1].id, map[])]
  {
    var events := args[..|args| - 1];
    Bind(BindRecords(Opened(st, events, args[|args| - 1].id), st.nextId, events, 0), Name("all"), Watch(st.nextId))
  }

  /** The closure variables of a new `assign` call: its events, its callback and an empty `_deps`. */
  function Opened(st: State, events: seq<Arg>, callback: nat): State {
    st.(nextId := st.nextId + 1, assigns := st.assigns[st.nextId := AssignState(events, callback, map[])])
  }

  /** The loop `for (index = 0; index < length; index++) bind(args[index])`. */
  function BindRecords(st: State, k: nat, events: seq<Arg>, i: nat): (r: State)
    ensures r == st.(callbacks := r.callbacks)
    decreases |events| - i
  {
    if i >= |events| then st
    else BindRecords(Bind(st, events[i], Record(k, events[i])), k, events, i + 1)
  }
}

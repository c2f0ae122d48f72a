/**
 * eventproxy.js, the older version at the repository root, as functions over
 * the proxy's state.
 *
 * As in the current version, `_callbacks` maps event names to JavaScript
 * arrays that are shared by reference: a `once` wrapper bound on the empty
 * name replaces `_callbacks` by a new object while `trigger` is still
 * iterating the old one. The state therefore keeps every array allocated
 * (`lists`) and maps keys to indices into it (`callbacks`).
 *
 * The wildcard of this version is the ordinary name 'all' (`NameKey`).
 * The class in old_proxy.dfy runs the same operations with the source's
 * loops and is proved to compute these functions.
 */
module OldModel {
  import opened Common
  import opened Slots

  /** The functions the proxy can hold in a listener slot; the library's own closures carry their identity. */
  datatype Listener =
    | User(id: nat)                                   // a callback of the program using the proxy
    | Wrapper(wrapper: nat, ev: Arg, inner: Listener) // `once`'s anonymous function around `inner`, bound on `ev`
    | Record(inst: nat, key: Arg)                     // `assign`'s `bind(key)` listener
    | Watch(inst: nat)                                // `assign`'s `all` function, bound on 'all'

  type ListenerList = seq<Option<Listener>>

  /** The closure variables of one `assign` call. */
  datatype AssignState = AssignState(events: seq<Arg>, callback: nat, isOnce: bool, times: int)

  datatype State = State(
    lists: seq<ListenerList>,          // every listener array allocated so far
    callbacks: map<Key, nat>,          // `_callbacks`: key -> index of its array in `lists`
    fired: map<Key, seq<Value>>,       // `_fired[key].data`
    assigns: map<nat, AssignState>,    // state of each `assign` call, by its identity
    nextId: nat,                       // identity of the next closure created
    log: seq<Call>)                    // user callbacks invoked so far, in order

  /** `new EventProxy()`: `_callbacks` and `_fired` start empty. */
  function Empty(): State {
    State([], map[], map[], map[], 0, [])
  }

  /** The array at index `r`; an index that was never allocated reads as an empty array. */
  function Deref(lists: seq<ListenerList>, r: nat): ListenerList {
    if r < |lists| then lists[r] else []
  }

  /** Overwrite the array at index `r` (no effect on an index never allocated). */
  function Store(lists: seq<ListenerList>, r: nat, s: ListenerList): (ls: seq<ListenerList>)
    ensures |ls| == |lists|
    ensures r < |lists| ==> ls == lists[r := s]
  {
    if r < |lists| then lists[r := s] else lists
  }

  /** `_callbacks[k]`, with an absent key read as an empty list. */
  function ListOf(st: State, k: Key): ListenerList {
    if k in st.callbacks then Deref(st.lists, st.callbacks[k]) else []
  }

  /** Every key refers to an allocated array and no two keys share one. */
  ghost predicate Valid(st: State) {
    && (forall k :: k in st.callbacks ==> st.callbacks[k] < |st.lists|)
    && (forall k1, k2 :: k1 in st.callbacks && k2 in st.callbacks && k1 != k2 ==> st.callbacks[k1] != st.callbacks[k2])
  }

  /** `!ev`: a missing name or the empty string. */
  predicate Falsy(ev: Option<Arg>) {
    ev.None? || ev.value == Name("")
  }

  function Log(st: State, fn: nat, args: seq<Value>): State {
    st.(log := st.log + [Call(fn, args)])
  }

  // ---------------------------------------------------------------------
  // Registry
  // ---------------------------------------------------------------------

  /** `bind(ev, callback)` (aliases `on`, `addListener`): push onto the array of `ev`, creating it when absent. */
  function Bind(st: State, ev: Arg, l: Listener): (r: State)
    ensures r == st.(lists := r.lists, callbacks := r.callbacks)
    ensures r.callbacks.Keys == st.callbacks.Keys + {ArgKey(ev)}
    ensures Valid(st) ==> Valid(r)
    ensures Valid(st) ==> ListOf(r, ArgKey(ev)) == ListOf(st, ArgKey(ev)) + [Some(l)]
    ensures Valid(st) ==> forall k' :: k' != ArgKey(ev) ==> ListOf(r, k') == ListOf(st, k')
  {
    var k := ArgKey(ev);
    if k in st.callbacks && st.callbacks[k] < |st.lists| then
      var ref := st.callbacks[k];
      st.(lists := st.lists[ref := st.lists[ref] + [Some(l)]])
    else
      st.(lists := st.lists + [[Some(l)]], callbacks := st.callbacks[k := |st.lists|])
  }

  /**
   * `unbind(ev, callback)` (alias `removeListener`): a falsy name replaces
   * `_callbacks` by an empty object; a name alone gets a fresh empty array;
   * a name and a callback null the FIRST slot holding the callback and
   * stop there; an unbound name with a callback changes nothing.
   */
  function Unbind(st: State, ev: Option<Arg>, cb: Option<Listener>): (r: State)
    ensures r == st.(lists := r.lists, callbacks := r.callbacks)
    ensures Falsy(ev) ==> r.callbacks == map[] && r.lists == st.lists
    ensures !Falsy(ev) && cb.Some? ==> r.callbacks == st.callbacks && |r.lists| == |st.lists|
    ensures Valid(st) ==> Valid(r)
    ensures Valid(st) && !Falsy(ev) && cb.None? ==>
      ArgKey(ev.value) in r.callbacks && ListOf(r, ArgKey(ev.value)) == []
      && forall k' :: k' != ArgKey(ev.value) ==> ListOf(r, k') == ListOf(st, k')
    ensures Valid(st) && !Falsy(ev) && cb.Some? ==>
      ListOf(r, ArgKey(ev.value)) == NullFirst(ListOf(st, ArgKey(ev.value)), cb.value)
      && forall k' :: k' != ArgKey(ev.value) ==> ListOf(r, k') == ListOf(st, k')
  {
    if Falsy(ev) then
      st.(callbacks := map[])
    else
      var k := ArgKey(ev.value);
      if cb.None? then
        st.(lists := st.lists + [[]], callbacks := st.callbacks[k := |st.lists|])
      else if k in st.callbacks then
        var ref := st.callbacks[k];
        st.(lists := Store(st.lists, ref, NullFirst(Deref(st.lists, ref), cb.value)))
      else
        st
  }

  /** `removeAllListeners(event)`: `unbind(event)` without a callback. */
  function RemoveAllListeners(st: State, ev: Option<Arg>): (r: State)
    ensures r == st.(lists := r.lists, callbacks := r.callbacks)
    ensures Falsy(ev) ==> r.callbacks == map[]
    ensures Valid(st) && !Falsy(ev) ==>
      Valid(r) && ListOf(r, ArgKey(ev.value)) == []
      && forall k' :: k' != ArgKey(ev.value) ==> ListOf(r, k') == ListOf(st, k')
  {
    Unbind(st, ev, None)
  }

  // ---------------------------------------------------------------------
  // Dispatcher
  // ---------------------------------------------------------------------

  /**
   * `trigger(eventName, data...)` (alias `emit`, `fire`): the array of the
   * name, then the array of 'all', each read from `_callbacks` as it is
   * on entry (`calls`). The listeners of the name receive the arguments
   * after it; those of 'all' receive the name first.
   */
  function Trigger(st: State, name: string, args: seq<Value>): State {
    var calls := st.callbacks;
    var k := NameKey(name);
    var st1 := if k in calls then Pass(st, calls[k], args, 0, |Deref(st.lists, calls[k])|) else st;
    if Wildcard in calls then
      Pass(st1, calls[Wildcard], [Str(name)] + args, 0, |Deref(st1.lists, calls[Wildcard])|)
    else st1
  }

  /**
   * The `for (i = 0, l = list.length; i < l; i++)` loop over the array at
   * `r`: a null slot is spliced out and `i`, `l` both step back; a live
   * slot is called. The array is re-read at every step.
   */
  function Pass(st: State, r: nat, args: seq<Value>, i: nat, l: int): State
    decreases l - i
  {
    if i >= l then st
    else
      var list := Deref(st.lists, r);
      if i >= |list| || list[i].None? then
        Pass(st.(lists := Store(st.lists, r, Splice(list, i))), r, args, i, l - 1)
      else
        Pass(Invoke(st, list[i].value, args), r, args, i + 1, l)
  }

  /** `callback.apply(this, args)`. */
  function Invoke(st: State, l: Listener, args: seq<Value>): State
    decreases l
  {
    match l
    case User(id) => Log(st, id, args)
    case Wrapper(w, ev, inner) =>
      // `callback.apply(self, arguments); self.unbind(ev, arguments.callee);`
      Unbind(Invoke(st, inner, args), Some(ev), Some(l))
    case Record(k, key) => RecordData(st, k, key, args)
    case Watch(k) => WatchAll(st, k)
  }

  /** `assign`'s `bind(key)` listener: store its arguments in `_fired[key].data` and count the firing. */
  function RecordData(st: State, k: nat, key: Arg, data: seq<Value>): (r: State)
    ensures r.fired == st.fired[ArgKey(key) := data]
    ensures r == st.(fired := r.fired, assigns := r.assigns)
  {
    var st1 := st.(fired := st.fired[ArgKey(key) := data]);
    if k in st.assigns then
      var a := st.assigns[k];
      st1.(assigns := st.assigns[k := a.(times := a.times + 1)])
    else st1
  }

  /** The loop of `all` collecting `_fired[events[index]].data` for each listed event that has some. */
  function Collected(fired: map<Key, seq<Value>>, events: seq<Arg>): (data: seq<Value>)
    ensures |data| <= |events|
    ensures (forall i :: 0 <= i < |events| ==> ArgKey(events[i]) in fired) ==>
      |data| == |events| && forall i :: 0 <= i < |events| ==> data[i] == Arr(fired[ArgKey(events[i])])
  {
    if events == [] then []
    else
      var n := |events| - 1;
      var key := ArgKey(events[n]);
      Collected(fired, events[..n]) + (if key in fired then [Arr(fired[key])] else [])
  }

  /**
   * `assign`'s `all` function, called on every trigger: until every listed
   * event has been counted it returns; then it calls back with the stored
   * argument lists, and either re-binds every event and resets the count
   * (persistent) or unbinds itself from 'all' (one-shot).
   */
  function WatchAll(st: State, k: nat): State {
    if k !in st.assigns then st
    else
      var a := st.assigns[k];
      if a.times < |a.events| then st
      else
        var st1 := Log(st, a.callback, Collected(st.fired, a.events));
        if !a.isOnce then
          var st2 := BindRecords(st1, k, a.events, 0);
          st2.(assigns := st2.assigns[k := a.(times := 0)])
        else
          Unbind(st1, Some(Name("all")), Some(Watch(k)))
  }

  /** A program's sequence of `trigger` calls, applied in order. */
  function Run(st: State, t: seq<Firing>): State {
    if t == [] then st else Trigger(Run(st, t[..|t| - 1]), t[|t| - 1].name, t[|t| - 1].args)
  }

  /** `once(ev, callback)`: bind a fresh wrapper that unbinds itself after calling `callback`. */
  function Once(st: State, ev: Arg, inner: Listener): (r: State)
    ensures r == st.(lists := r.lists, callbacks := r.callbacks, nextId := st.nextId + 1)
    ensures r.callbacks.Keys == st.callbacks.Keys + {ArgKey(ev)}
    ensures Valid(st) ==> Valid(r) && ListOf(r, ArgKey(ev)) == ListOf(st, ArgKey(ev)) + [Some(Wrapper(st.nextId, ev, inner))]
    ensures Valid(st) ==> forall k' :: k' != ArgKey(ev) ==> ListOf(r, k') == ListOf(st, k')
  {
    Bind(st.(nextId := st.nextId + 1), ev, Wrapper(st.nextId, ev, inner))
  }

  // ---------------------------------------------------------------------
  // assign
  // ---------------------------------------------------------------------

  /** What `assign` makes of its arguments: the events, the callback and the mode. */
  datatype Parsed = Parsed(events: seq<Arg>, callback: nat, isOnce: bool)

  /**
   * The argument checks of `assign`: a function last means one-shot mode
   * with every earlier argument an event (at least two arguments in all);
   * the string "persistent" last means persistent mode with the callback
   * just before it, which must be a function (at least three arguments);
   * anything else binds nothing.
   */
  function ParseAssign(args: seq<Arg>): (p: Option<Parsed>)
    ensures p.Some? ==> 1 <= |p.value.events| && |p.value.events| + (if p.value.isOnce then 1 else 2) == |args|
    ensures p.Some? ==> args[..|p.value.events|] == p.value.events && args[|p.value.events|] == Fn(p.value.callback)
    ensures p.Some? && p.value.isOnce <==> |args| >= 2 && args[|args| - 1].Fn?
    ensures p.Some? && !p.value.isOnce <==> |args| >= 3 && args[|args| - 1] == Name("persistent") && args[|args| - 2].Fn?
  {
    if |args| == 0 then None
    else
      var last := args[|args| - 1];
      if last.Fn? then
        if |args| < 2 then None else Some(Parsed(args[..|args| - 1], last.id, true))
      else if last == Name("persistent") then
        if |args| < 3 then None
        else if !args[|args| - 2].Fn? then None
        else Some(Parsed(args[..|args| - 2], args[|args| - 2].id, false))
      else None
  }

  /** `assign(events..., cb [, "persistent"])`. */
  function Assign(st: State, args: seq<Arg>): State {
    match ParseAssign(args)
    case None => st
    case Some(p) => Arm(st, p.events, p.callback, p.isOnce)
  }

  /** The part of `assign` past its argument checks: a new instance, its `once` listeners, then `all` on 'all'. */
  function Arm(st: State, events: seq<Arg>, callback: nat, isOnce: bool): State {
    Bind(BindRecords(Opened(st, events, callback, isOnce), st.nextId, events, 0), Name("all"), Watch(st.nextId))
  }

  /** `times = 0` and the other closure variables of a new `assign` call. */
  function Opened(st: State, events: seq<Arg>, callback: nat, isOnce: bool): State {
    st.(nextId := st.nextId + 1, assigns := st.assigns[st.nextId := AssignState(events, callback, isOnce, 0)])
  }

  /** The loop `for (index = 0; index < length; index++) bind(events[index])`, each a `once` listener. */
  function BindRecords(st: State, k: nat, events: seq<Arg>, i: nat): (r: State)
    ensures r == st.(lists := r.lists, callbacks := r.callbacks, nextId := r.nextId)
    ensures Valid(st) ==> Valid(r)
    decreases |events| - i
  {
    if i >= |events| then st
    else BindRecords(Once(st, events[i], Record(k, events[i])), k, events, i + 1)
  }

  // ---------------------------------------------------------------------
  // Every operation keeps the map of keys to arrays well formed
  // ---------------------------------------------------------------------

  lemma {:induction false} InvokeValid(st: State, l: Listener, args: seq<Value>)
    requires Valid(st)
    ensures Valid(Invoke(st, l, args))
    decreases l
  {
    match l
    case User(_) =>
    case Wrapper(w, ev, inner) =>
      InvokeValid(st, inner, args);
    case Record(k, key) =>
    case Watch(k) =>
  }

  lemma {:induction false} PassValid(st: State, r: nat, args: seq<Value>, i: nat, l: int)
    requires Valid(st)
    ensures Valid(Pass(st, r, args, i, l))
    decreases l - i
  {
    if i < l {
      var list := Deref(st.lists, r);
      if i >= |list| || list[i].None? {
        PassValid(st.(lists := Store(st.lists, r, Splice(list, i))), r, args, i, l - 1);
      } else {
        InvokeValid(st, list[i].value, args);
        PassValid(Invoke(st, list[i].value, args), r, args, i + 1, l);
      }
    }
  }

  lemma TriggerValid(st: State, name: string, args: seq<Value>)
    requires Valid(st)
    ensures Valid(Trigger(st, name, args))
  {
    var calls := st.callbacks;
    var k := NameKey(name);
    if k in calls {
      PassValid(st, calls[k], args, 0, |Deref(st.lists, calls[k])|);
    }
    var st1 := if k in calls then Pass(st, calls[k], args, 0, |Deref(st.lists, calls[k])|) else st;
    if Wildcard in calls {
      PassValid(st1, calls[Wildcard], [Str(name)] + args, 0, |Deref(st1.lists, calls[Wildcard])|);
    }
  }
}

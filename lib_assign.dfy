/**
 * `all` and `tail` of lib/eventproxy.js (both `_assign`) on a fresh proxy,
 * over any sequence of triggers: `all` calls back exactly once, when the
 * last listed event fires for the first time, with the first payload of
 * each; `tail` calls back on every firing of a listed event once all have
 * fired, with the latest payload of each.
 */
module LibAssign {
  import opened Common
  import opened Slots
  import opened LibModel
  import opened LibDispatch

  /** The listener-map keys of the listed event names. */
  function EvKeys(events: seq<string>): (ks: seq<Key>)
    ensures |ks| == |events| && forall i :: 0 <= i < |events| ==> ks[i] == Ev(events[i])
  {
    KeysOf(Names(events))
  }

  /** The flags of an `_assign` instance: the listed events among `names`. */
  function FiredKeys(events: seq<string>, names: set<string>): set<Key> {
    set e | e in events && e in names :: Ev(e)
  }

  /** The closure state of instance 0 after the events `names` have fired. */
  function Expected(events: seq<string>, cb: nat, isOnce: bool, names: set<string>): AssignState {
    AssignState(EvKeys(events), cb, isOnce, CountIn(events, names), FiredKeys(events, names))
  }

  /** What `bind(key)` does to the instance state when `x` fires. */
  lemma ExpectedRecord(events: seq<string>, cb: nat, isOnce: bool, names: set<string>, x: string)
    requires Distinct(events)
    ensures var a := Expected(events, cb, isOnce, names);
      (Ev(x) in a.flag <==> x in events && x in names)
      && (x in events && x !in names ==>
            a.(flag := a.flag + {Ev(x)}, times := a.times + 1) == Expected(events, cb, isOnce, names + {x}))
      && (x !in events || x in names ==> a == Expected(events, cb, isOnce, names + {x}))
  {
    CountInAdd(events, names, x);
    var a := Expected(events, cb, isOnce, names);
    if x in events && x !in names {
      assert a.flag + {Ev(x)} == FiredKeys(events, names + {x});
    } else {
      assert FiredKeys(events, names) == FiredKeys(events, names + {x});
    }
  }

  /** A proxy on which `_assign(events..., cb)` is the only call made: the keys bound. */
  ghost predicate Registry(st: State, events: seq<string>) {
    && Valid(st)
    && Wildcard in st.callbacks
    && (forall x :: Ev(x) in st.callbacks <==> x in events)
  }

  /** The array of a listed event before it fires: `all`'s `once` wrapper or `tail`'s plain listener. */
  predicate RecordSlot(s: ListenerList, e: string, isOnce: bool) {
    if isOnce then |s| == 1 && s[0].Some? && s[0].value.Wrapper? && s[0].value.ev == Ev(e) && s[0].value.inner == Record(0, Ev(e))
    else s == [Some(Record(0, Ev(e)))]
  }

  /** `_assign(events..., cb, isOnce)` on a fresh proxy. */
  function Setup(events: seq<string>, cb: nat, isOnce: bool): State {
    Assign(Empty(), Names(events) + [Fn(cb)], isOnce)
  }

  /** After binding the first `i` listed events: each has its own array holding its record listener. */
  ghost predicate Bound(st: State, events: seq<string>, isOnce: bool, i: nat) {
    && Valid(st) && Wildcard !in st.callbacks && i <= |events|
    && (forall x :: Ev(x) in st.callbacks <==> x in events[..i])
    && (forall j :: 0 <= j < i ==> RecordSlot(ListOf(st, Ev(events[j])), events[j], isOnce))
  }

  /** One turn of `_assign`'s binding loop. */
  function BindOne(st: State, e: string, isOnce: bool): State {
    if isOnce then Once(st, Ev(e), Record(0, Ev(e))) else AddListener(st, Ev(e), Record(0, Ev(e)))
  }

  /** What one turn of the binding loop does to the map: one slot more for `e`, nothing else changed. */
  lemma BindOneShape(st: State, e: string, isOnce: bool)
    requires Valid(st)
    ensures var r := BindOne(st, e, isOnce);
      var k := Ev(e);
      && Valid(r) && r == st.(lists := r.lists, callbacks := r.callbacks, nextId := r.nextId)
      && r.callbacks.Keys == st.callbacks.Keys + {k}
      && ListOf(r, k) == ListOf(st, k) + [Some(if isOnce then Wrapper(st.nextId, k, Record(0, k)) else Record(0, k))]
      && forall k' :: k' != k ==> ListOf(r, k') == ListOf(st, k')
  {
  }

  lemma BindStep(st: State, events: seq<string>, isOnce: bool, i: nat)
    requires Distinct(events) && Bound(st, events, isOnce, i) && i < |events|
    ensures var r := BindOne(st, events[i], isOnce);
      Bound(r, events, isOnce, i + 1) && r == st.(lists := r.lists, callbacks := r.callbacks, nextId := r.nextId)
  {
    var e := events[i];
    var k := Ev(e);
    var r := BindOne(st, e, isOnce);
    BindOneShape(st, e, isOnce);
    assert e !in events[..i];
    assert ListOf(st, k) == [];
    assert Wildcard !in r.callbacks;
    assert events[..i + 1] == events[..i] + [e];
    forall x ensures Ev(x) in r.callbacks <==> x in events[..i + 1] {
      assert x in events[..i + 1] <==> x in events[..i] || x == e;
    }
    forall j | 0 <= j < i ensures RecordSlot(ListOf(r, Ev(events[j])), events[j], isOnce) {
      assert events[j] != e;
    }
  }

  lemma {:induction false} BindRecordsShape(st: State, events: seq<string>, isOnce: bool, i: nat)
    requires Distinct(events) && Bound(st, events, isOnce, i)
    ensures var r := BindRecords(st, 0, EvKeys(events), isOnce, i);
      Bound(r, events, isOnce, |events|) && r == st.(lists := r.lists, callbacks := r.callbacks, nextId := r.nextId)
    decreases |events| - i
  {
    if i < |events| {
      assert EvKeys(events)[i] == Ev(events[i]);
      BindStep(st, events, isOnce, i);
      BindRecordsShape(BindOne(st, events[i], isOnce), events, isOnce, i + 1);
    }
  }

  /** `_assign`'s binding loop, for any instance: only the listed keys' arrays change, and only by growing. */
  lemma {:induction false} BindRecordsFrame(st: State, id: nat, keys: seq<Key>, isOnce: bool, i: nat)
    requires Valid(st) && i <= |keys|
    ensures var r := BindRecords(st, id, keys, isOnce, i);
      && Valid(r) && r == st.(lists := r.lists, callbacks := r.callbacks, nextId := r.nextId)
      && forall k' :: k' !in keys[i..] ==> ListOf(r, k') == ListOf(st, k')
    decreases |keys| - i
  {
    if i < |keys| {
      var st1 := if isOnce then Once(st, keys[i], Record(id, keys[i])) else AddListener(st, keys[i], Record(id, keys[i]));
      BindRecordsFrame(st1, id, keys, isOnce, i + 1);
      assert BindRecords(st, id, keys, isOnce, i) == BindRecords(st1, id, keys, isOnce, i + 1);
      InSuffix(keys, i);
    }
  }

  /** `_assign(events..., cb)` on a fresh proxy passes its argument checks. */
  lemma SetupUnfold(events: seq<string>, cb: nat, isOnce: bool)
    requires |events| >= 1
    ensures Setup(events, cb, isOnce) == Arm(Empty(), EvKeys(events), cb, isOnce)
  {
    var args := Names(events) + [Fn(cb)];
    assert args[..|args| - 1] == Names(events);
  }

  /** The binding loop of `_assign` on a fresh proxy: one array per listed event, holding its record listener. */
  lemma SetupRecords(events: seq<string>, cb: nat, isOnce: bool)
    requires Distinct(events)
    ensures var b := BindRecords(Opened(Empty(), EvKeys(events), cb, isOnce), 0, EvKeys(events), isOnce, 0);
      && Bound(b, events, isOnce, |events|) && b.fired == map[] && b.log == []
      && 0 in b.assigns && b.assigns[0] == AssignState(EvKeys(events), cb, isOnce, 0, {})
  {
    var st1 := Opened(Empty(), EvKeys(events), cb, isOnce);
    assert Bound(st1, events, isOnce, 0);
    BindRecordsShape(st1, events, isOnce, 0);
  }

  /** What `_assign` leaves on a fresh proxy. */
  lemma SetupShape(events: seq<string>, cb: nat, isOnce: bool)
    requires |events| >= 1 && Distinct(events)
    ensures var st := Setup(events, cb, isOnce);
      && Registry(st, events) && 0 in st.assigns && st.assigns[0] == Expected(events, cb, isOnce, {})
      && (forall e :: e in events ==> RecordSlot(ListOf(st, Ev(e)), e, isOnce))
      && ListOf(st, Wildcard) == [Some(Check(0))]
      && st.fired == map[] && st.log == []
  {
    SetupUnfold(events, cb, isOnce);
    SetupRecords(events, cb, isOnce);
    var b := BindRecords(Opened(Empty(), EvKeys(events), cb, isOnce), 0, EvKeys(events), isOnce, 0);
    var st := AddListener(b, Wildcard, Check(0));
    assert st == Setup(events, cb, isOnce);
    assert events[..|events|] == events;
    CountInNone(events);
    assert FiredKeys(events, {}) == {};
    forall e | e in events ensures RecordSlot(ListOf(st, Ev(e)), e, isOnce) {
      var j :| 0 <= j < |events| && events[j] == e;
    }
  }

  // ---------------------------------------------------------------------
  // all
  // ---------------------------------------------------------------------

  /** The payloads `all` calls back with: the first payload of each listed event, in listed order. */
  function AllData(events: seq<string>, t: seq<Firing>): seq<Value>
    requires Covered(events, t)
  {
    seq(|events|, i requires 0 <= i < |events| => Head(FirstArgs(t, events[i])))
  }

  /** The arrays of the listed events: dead once fired (the `once` wrapper is gone), a record listener before. */
  ghost predicate EventLists(st: State, events: seq<string>, names: set<string>, isOnce: bool) {
    forall e :: e in events ==>
      if isOnce && e in names then Dead(ListOf(st, Ev(e))) else RecordSlot(ListOf(st, Ev(e)), e, isOnce)
  }

  /** `_fired` holds the first payload of every listed event fired so far. */
  ghost predicate FirstFired(st: State, events: seq<string>, t: seq<Firing>) {
    forall e :: e in events && e in NamesFired(t) ==> Ev(e) in st.fired && st.fired[Ev(e)] == Head(FirstArgs(t, e))
  }

  /** The state of a proxy after `all(events..., cb)` and the triggers `t`. */
  ghost predicate AllInv(st: State, events: seq<string>, cb: nat, t: seq<Firing>) {
    && Registry(st, events)
    && 0 in st.assigns && st.assigns[0] == Expected(events, cb, true, NamesFired(t))
    && EventLists(st, events, NamesFired(t), true)
    && (if Covered(events, t) then Dead(ListOf(st, Wildcard)) else ListOf(st, Wildcard) == [Some(Check(0))])
    && FirstFired(st, events, t)
    && st.log == if Covered(events, t) then [Call(cb, AllData(events, t))] else []
  }

  /** The wildcard pass of a trigger that does not complete `all`: `_all` returns early or is gone. */
  lemma AllWildcardQuiet(st: State, events: seq<string>, cb: nat, names: set<string>, covered: bool, k: Key, args: seq<Value>)
    requires Registry(st, events) && 0 in st.assigns && st.assigns[0] == Expected(events, cb, true, names)
    requires covered <==> forall e :: e in events ==> e in names
    requires if covered then Dead(ListOf(st, Wildcard)) else ListOf(st, Wildcard) == [Some(Check(0))]
    ensures var r := PassSmall(st, st.callbacks[Wildcard], [EventName(k)] + args, 1);
      && r == st.(lists := r.lists) && Registry(r, events)
      && ListOf(r, Wildcard) == (if covered then [] else [Some(Check(0))])
      && forall k' :: k' != Wildcard ==> ListOf(r, k') == ListOf(st, k')
  {
    CountInFull(events, names);
    SetList(st, Wildcard, []);
  }

  /** A trigger whose own array is dead: only the splicing of dead slots happens. */
  lemma AllQuietState(st: State, events: seq<string>, cb: nat, names: set<string>, covered: bool, k: Key, args: seq<Value>)
    requires Registry(st, events) && 0 in st.assigns && st.assigns[0] == Expected(events, cb, true, names)
    requires covered <==> forall e :: e in events ==> e in names
    requires if covered then Dead(ListOf(st, Wildcard)) else ListOf(st, Wildcard) == [Some(Check(0))]
    requires k != Wildcard && Dead(ListOf(st, k))
    ensures var r := Dispatch(st, k, args, 1);
      && r == st.(lists := r.lists) && Registry(r, events) && Dead(ListOf(r, k))
      && ListOf(r, Wildcard) == (if covered then [] else [Some(Check(0))])
      && forall k' :: k' != Wildcard && k' != k ==> ListOf(r, k') == ListOf(st, k')
  {
    DispatchSmall(st, k, args, 1);
    var st1 := if k in st.callbacks then PassSmall(st, st.callbacks[k], args, 1) else st;
    if k in st.callbacks && ListOf(st, k) == [None] {
      SetList(st, k, []);
    }
    assert Registry(st1, events) && st1 == st.(lists := st1.lists) && Dead(ListOf(st1, k));
    assert forall k' :: k' != k ==> ListOf(st1, k') == ListOf(st, k');
    AllWildcardQuiet(st1, events, cb, names, covered, k, args);
  }

  /** A trigger of an unlisted event, or a repeated one, changes nothing `all` depends on. */
  lemma AllQuiet(st: State, events: seq<string>, cb: nat, t: seq<Firing>, f: Firing)
    requires Distinct(events) && AllInv(st, events, cb, t)
    requires f.name !in events || f.name in NamesFired(t)
    ensures AllInv(Trigger(st, f.name, f.args), events, cb, t + [f])
  {
    CountInFull(events, NamesFired(t));
    AllQuietState(st, events, cb, NamesFired(t), Covered(events, t), Ev(f.name), f.args);
    AllQuietInv(st, Trigger(st, f.name, f.args), events, cb, t, f);
  }

  lemma AllQuietInv(st: State, r: State, events: seq<string>, cb: nat, t: seq<Firing>, f: Firing)
    requires Distinct(events) && AllInv(st, events, cb, t)
    requires f.name !in events || f.name in NamesFired(t)
    requires r == st.(lists := r.lists) && Registry(r, events) && Dead(ListOf(r, Ev(f.name)))
    requires ListOf(r, Wildcard) == (if Covered(events, t) then [] else [Some(Check(0))])
    requires forall k' :: k' != Wildcard && k' != Ev(f.name) ==> ListOf(r, k') == ListOf(st, k')
    ensures AllInv(r, events, cb, t + [f])
  {
    var names := NamesFired(t);
    NamesFiredSnoc(t, f);
    ExpectedRecord(events, cb, true, names, f.name);
    assert names + {f.name} == names || f.name !in events;
    CoveredQuiet(events, t, f);
    EventListsFirst(st, r, events, names, f.name);
    FirstFiredQuiet(st, r, events, t, f);
  }

  lemma CoveredQuiet(events: seq<string>, t: seq<Firing>, f: Firing)
    requires f.name !in events || f.name in NamesFired(t)
    ensures Covered(events, t + [f]) == Covered(events, t)
    ensures Covered(events, t) ==> AllData(events, t + [f]) == AllData(events, t)
  {
    NamesFiredSnoc(t, f);
    if Covered(events, t) {
      forall i | 0 <= i < |events| ensures FirstArgs(t + [f], events[i]) == FirstArgs(t, events[i]) {
        FirstArgsSnoc(t, f, events[i]);
      }
    }
  }

  lemma FirstFiredQuiet(st: State, r: State, events: seq<string>, t: seq<Firing>, f: Firing)
    requires FirstFired(st, events, t) && r.fired == st.fired && (f.name !in events || f.name in NamesFired(t))
    ensures FirstFired(r, events, t + [f])
  {
    NamesFiredSnoc(t, f);
    forall e | e in events && e in NamesFired(t + [f])
      ensures Ev(e) in r.fired && r.fired[Ev(e)] == Head(FirstArgs(t + [f], e))
    {
      FirstArgsSnoc(t, f, e);
    }
  }

  /** The first firing of a listed event: its `once` wrapper records the payload and unbinds itself. */
  lemma AllRecord(st: State, events: seq<string>, cb: nat, t: seq<Firing>, f: Firing)
    requires Distinct(events) && AllInv(st, events, cb, t) && f.name != ""
    requires f.name in events && f.name !in NamesFired(t)
    ensures var st1 := PassSmall(st, st.callbacks[Ev(f.name)], f.args, 1);
      && Registry(st1, events) && st1.callbacks == st.callbacks && st1.log == st.log
      && st1.assigns == st.assigns[0 := Expected(events, cb, true, NamesFired(t) + {f.name})]
      && st1.fired == st.fired[Ev(f.name) := Head(f.args)]
      && ListOf(st1, Ev(f.name)) == [None]
      && forall k' :: k' != Ev(f.name) ==> ListOf(st1, k') == ListOf(st, k')
  {
    var k := Ev(f.name);
    var w := ListOf(st, k)[0].value;
    var stR := st.(fired := st.fired[k := Head(f.args)], assigns := st.assigns[0 := Expected(events, cb, true, NamesFired(t) + {f.name})]);
    AllRecordPass(st, events, cb, t, f);
    assert NullAll([Some(w)], w) == [None];
    assert Valid(stR) && stR.callbacks == st.callbacks;
  }

  /** That firing's pass: the wrapper's record listener runs, then the wrapper unbinds itself. */
  lemma AllRecordPass(st: State, events: seq<string>, cb: nat, t: seq<Firing>, f: Firing)
    requires Distinct(events) && AllInv(st, events, cb, t) && f.name != ""
    requires f.name in events && f.name !in NamesFired(t)
    ensures var k := Ev(f.name);
      && k in st.callbacks && ListOf(st, k) != [] && ListOf(st, k)[0].Some?
      && var w := ListOf(st, k)[0].value;
      && ListOf(st, k) == [Some(w)]
      && PassSmall(st, st.callbacks[k], f.args, 1)
         == RemoveListener(st.(fired := st.fired[k := Head(f.args)], assigns := st.assigns[0 := Expected(events, cb, true, NamesFired(t) + {f.name})]),
                           Some(k), Some(w))
  {
    var k := Ev(f.name);
    var names := NamesFired(t);
    var w := ListOf(st, k)[0].value;
    assert RecordSlot(ListOf(st, k), f.name, true);
    OnceRecordFiring(st, events, cb, names, f.name, Head(f.args));
    var stR := st.(fired := st.fired[k := Head(f.args)], assigns := st.assigns[0 := Expected(events, cb, true, names + {f.name})]);
    assert Deref(st.lists, st.callbacks[k]) == [Some(w)] && w.ev == k && w.inner == Record(0, k);
    assert Invoke(st, w.inner, f.args, 1) == stR;
  }

  /** `all`'s `bind(key)` listener at the first firing of a listed event: the payload is stored and the key flagged. */
  lemma OnceRecordFiring(st: State, events: seq<string>, cb: nat, names: set<string>, x: string, data: Value)
    requires Distinct(events) && x in events && x !in names
    requires 0 in st.assigns && st.assigns[0] == Expected(events, cb, true, names)
    ensures RecordFiring(st, 0, Ev(x), data)
         == st.(fired := st.fired[Ev(x) := data], assigns := st.assigns[0 := Expected(events, cb, true, names + {x})])
  {
    ExpectedRecord(events, cb, true, names, x);
  }

  /** The completing firing: `_all` unbinds itself and calls back with the stored payloads. */
  lemma AllComplete(st1: State, events: seq<string>, cb: nat, names: set<string>, k: Key, args: seq<Value>)
    requires Registry(st1, events) && 0 in st1.assigns && st1.assigns[0] == Expected(events, cb, true, names)
    requires (forall e :: e in events ==> e in names) && k in FiredKeys(events, names)
    requires ListOf(st1, Wildcard) == [Some(Check(0))]
    ensures var r := PassSmall(st1, st1.callbacks[Wildcard], [EventName(k)] + args, 1);
      && r == st1.(lists := r.lists, log := st1.log + [Call(cb, FiredData(st1.fired, EvKeys(events)))])
      && Registry(r, events) && ListOf(r, Wildcard) == [None]
      && forall k' :: k' != Wildcard ==> ListOf(r, k') == ListOf(st1, k')
  {
    CountInFull(events, names);
    assert NullAll([Some(Check(0))], Check(0)) == [None];
  }

  /** The callback does not run while some listed event is still missing. */
  lemma AllIncomplete(st1: State, events: seq<string>, cb: nat, names: set<string>, k: Key, args: seq<Value>)
    requires Registry(st1, events) && 0 in st1.assigns && st1.assigns[0] == Expected(events, cb, true, names)
    requires !(forall e :: e in events ==> e in names)
    requires ListOf(st1, Wildcard) == [Some(Check(0))]
    ensures PassSmall(st1, st1.callbacks[Wildcard], [EventName(k)] + args, 1) == st1
  {
    CountInFull(events, names);
  }

  /** The wildcard pass after a listed event has been recorded: `_all` either completes or returns. */
  lemma AllWildcardFire(st1: State, events: seq<string>, cb: nat, names: set<string>, k: Key, args: seq<Value>)
    requires Registry(st1, events) && 0 in st1.assigns && st1.assigns[0] == Expected(events, cb, true, names)
    requires k in FiredKeys(events, names) && ListOf(st1, Wildcard) == [Some(Check(0))]
    ensures var r := PassSmall(st1, st1.callbacks[Wildcard], [EventName(k)] + args, 1);
      var covered := forall e :: e in events ==> e in names;
      && Registry(r, events) && r.assigns == st1.assigns && r.fired == st1.fired
      && ListOf(r, Wildcard) == (if covered then [None] else [Some(Check(0))])
      && (forall k' :: k' != Wildcard ==> ListOf(r, k') == ListOf(st1, k'))
      && r.log == st1.log + (if covered then [Call(cb, FiredData(r.fired, EvKeys(events)))] else [])
  {
    if forall e :: e in events ==> e in names {
      AllComplete(st1, events, cb, names, k, args);
    } else {
      AllIncomplete(st1, events, cb, names, k, args);
    }
  }

  /** The first firing of a listed event, as a change of state. */
  lemma AllFirstState(st: State, events: seq<string>, cb: nat, t: seq<Firing>, f: Firing)
    requires Distinct(events) && AllInv(st, events, cb, t) && f.name != ""
    requires f.name in events && f.name !in NamesFired(t)
    ensures var r := Trigger(st, f.name, f.args);
      var names := NamesFired(t) + {f.name};
      var covered := forall e :: e in events ==> e in names;
      && Registry(r, events)
      && r.assigns == st.assigns[0 := Expected(events, cb, true, names)]
      && r.fired == st.fired[Ev(f.name) := Head(f.args)]
      && ListOf(r, Ev(f.name)) == [None]
      && ListOf(r, Wildcard) == (if covered then [None] else [Some(Check(0))])
      && (forall k' :: k' != Wildcard && k' != Ev(f.name) ==> ListOf(r, k') == ListOf(st, k'))
      && r.log == st.log + (if covered then [Call(cb, FiredData(r.fired, EvKeys(events)))] else [])
  {
    var k := Ev(f.name);
    var names := NamesFired(t) + {f.name};
    assert !Covered(events, t);
    assert ListOf(st, Wildcard) == [Some(Check(0))];
    AllRecord(st, events, cb, t, f);
    var st1 := PassSmall(st, st.callbacks[k], f.args, 1);
    assert ListOf(st1, Wildcard) == [Some(Check(0))];
    assert k in FiredKeys(events, names);
    DispatchSmall(st, k, f.args, 1);
    AllWildcardFire(st1, events, cb, names, k, f.args);
  }

  lemma AllFirstInv(st: State, r: State, events: seq<string>, cb: nat, t: seq<Firing>, f: Firing)
    requires Distinct(events) && AllInv(st, events, cb, t)
    requires f.name in events && f.name !in NamesFired(t)
    requires var names := NamesFired(t) + {f.name};
      var covered := forall e :: e in events ==> e in names;
      && Registry(r, events)
      && r.assigns == st.assigns[0 := Expected(events, cb, true, names)]
      && r.fired == st.fired[Ev(f.name) := Head(f.args)]
      && ListOf(r, Ev(f.name)) == [None]
      && ListOf(r, Wildcard) == (if covered then [None] else [Some(Check(0))])
      && (forall k' :: k' != Wildcard && k' != Ev(f.name) ==> ListOf(r, k') == ListOf(st, k'))
      && r.log == st.log + (if covered then [Call(cb, FiredData(r.fired, EvKeys(events)))] else [])
    ensures AllInv(r, events, cb, t + [f])
  {
    NamesFiredSnoc(t, f);
    assert !Covered(events, t) && st.log == [];
    EventListsFirst(st, r, events, NamesFired(t), f.name);
    FirstFiredFirst(st, r, events, t, f);
    if Covered(events, t + [f]) {
      FiredFirst(r, events, t + [f]);
    }
  }

  /** Once every listed event has fired, `_all`'s loop over `_fired` reads the first payloads. */
  lemma FiredFirst(st: State, events: seq<string>, t: seq<Firing>)
    requires FirstFired(st, events, t) && Covered(events, t)
    ensures FiredData(st.fired, EvKeys(events)) == AllData(events, t)
  {
    forall i | 0 <= i < |events| ensures Ev(events[i]) in st.fired && FiredData(st.fired, EvKeys(events))[i] == AllData(events, t)[i] {
      assert events[i] in events;
    }
  }

  lemma EventListsFirst(st: State, r: State, events: seq<string>, names: set<string>, x: string)
    requires EventLists(st, events, names, true) && Dead(ListOf(r, Ev(x)))
    requires forall k' :: k' != Wildcard && k' != Ev(x) ==> ListOf(r, k') == ListOf(st, k')
    ensures EventLists(r, events, names + {x}, true)
  {
    forall e | e in events
      ensures if e in names + {x} then Dead(ListOf(r, Ev(e))) else RecordSlot(ListOf(r, Ev(e)), e, true)
    {
      if e != x {
        assert ListOf(r, Ev(e)) == ListOf(st, Ev(e));
      }
    }
  }

  lemma FirstFiredFirst(st: State, r: State, events: seq<string>, t: seq<Firing>, f: Firing)
    requires FirstFired(st, events, t) && f.name !in NamesFired(t)
    requires r.fired == st.fired[Ev(f.name) := Head(f.args)]
    ensures FirstFired(r, events, t + [f])
  {
    NamesFiredSnoc(t, f);
    forall e | e in events && e in NamesFired(t + [f])
      ensures Ev(e) in r.fired && r.fired[Ev(e)] == Head(FirstArgs(t + [f], e))
    {
      FirstArgsSnoc(t, f, e);
    }
  }

  lemma AllFirst(st: State, events: seq<string>, cb: nat, t: seq<Firing>, f: Firing)
    requires Distinct(events) && AllInv(st, events, cb, t) && f.name != ""
    requires f.name in events && f.name !in NamesFired(t)
    ensures AllInv(Trigger(st, f.name, f.args), events, cb, t + [f])
  {
    AllFirstState(st, events, cb, t, f);
    AllFirstInv(st, Trigger(st, f.name, f.args), events, cb, t, f);
  }

  lemma AllStep(st: State, events: seq<string>, cb: nat, t: seq<Firing>, f: Firing)
    requires Distinct(events) && "" !in events && AllInv(st, events, cb, t)
    ensures AllInv(Trigger(st, f.name, f.args), events, cb, t + [f])
  {
    if f.name in events && f.name !in NamesFired(t) {
      AllFirst(st, events, cb, t, f);
    } else {
      AllQuiet(st, events, cb, t, f);
    }
  }

  lemma AllBase(events: seq<string>, cb: nat)
    requires |events| >= 1 && Distinct(events)
    ensures AllInv(Setup(events, cb, true), events, cb, [])
  {
    SetupShape(events, cb, true);
    assert NamesFired([]) == {};
    assert !Covered(events, []) by {
      assert events[0] in events;
    }
  }

  lemma {:induction false} AllRun(st0: State, events: seq<string>, cb: nat, t: seq<Firing>)
    requires Distinct(events) && "" !in events && AllInv(st0, events, cb, [])
    ensures AllInv(Run(st0, t), events, cb, t)
  {
    if t != [] {
      var n := |t| - 1;
      var t0, f := t[..n], t[n];
      assert t0 + [f] == t;
      AllRun(st0, events, cb, t0);
      var prev := Run(st0, t0);
      AllStep(prev, events, cb, t0, f);
      assert Run(st0, t) == Trigger(prev, f.name, f.args);
    }
  }

  /**
   * `all(events..., cb)` followed by any sequence of triggers: `cb` has been
   * called exactly once if every listed event has fired, with the payload
   * of each one's first firing in listed order, and not at all otherwise.
   */
  lemma AllCallsBackOnce(events: seq<string>, cb: nat, t: seq<Firing>)
    requires |events| >= 1 && Distinct(events) && "" !in events && AllEvent !in events
    ensures Run(All(Empty(), Names(events) + [Fn(cb)]), t).log
         == if Covered(events, t) then [Call(cb, AllData(events, t))] else []
  {
    AllBase(events, cb);
    AllRun(Setup(events, cb, true), events, cb, t);
  }


  // ---------------------------------------------------------------------
  // tail
  // ---------------------------------------------------------------------

  /** The payloads `tail` calls back with: the latest payload of each listed event, in listed order. */
  function LatestData(events: seq<string>, t: seq<Firing>): seq<Value>
    requires Covered(events, t)
  {
    seq(|events|, i requires 0 <= i < |events| => Head(LastArgs(t, events[i])))
  }

  /** The calls `tail` makes over the triggers `t`: one per firing of a listed event from the moment all have fired. */
  function TailLog(events: seq<string>, cb: nat, t: seq<Firing>): seq<Call> {
    if t == [] then []
    else
      TailLog(events, cb, t[..|t| - 1])
      + (if t[|t| - 1].name in events && Covered(events, t) then [Call(cb, LatestData(events, t))] else [])
  }

  /** `_fired` holds the latest payload of every listed event fired so far. */
  ghost predicate LastFired(st: State, events: seq<string>, t: seq<Firing>) {
    forall e :: e in events && e in NamesFired(t) ==> Ev(e) in st.fired && st.fired[Ev(e)] == Head(LastArgs(t, e))
  }

  /** The state of a proxy after `tail(events..., cb)` and the triggers `t`: nothing is ever unbound. */
  ghost predicate TailInv(st: State, events: seq<string>, cb: nat, t: seq<Firing>) {
    && Registry(st, events)
    && 0 in st.assigns && st.assigns[0] == Expected(events, cb, false, NamesFired(t))
    && EventLists(st, events, NamesFired(t), false)
    && ListOf(st, Wildcard) == [Some(Check(0))]
    && LastFired(st, events, t)
    && st.log == TailLog(events, cb, t)
  }

  lemma TailBase(events: seq<string>, cb: nat)
    requires |events| >= 1 && Distinct(events)
    ensures TailInv(Setup(events, cb, false), events, cb, [])
  {
    SetupShape(events, cb, false);
    assert NamesFired([]) == {};
  }

  /** A trigger of an unlisted event: `_all` sees an event it has not flagged and returns. */
  lemma TailUnlistedState(st: State, events: seq<string>, cb: nat, names: set<string>, x: string, args: seq<Value>)
    requires Registry(st, events) && 0 in st.assigns && st.assigns[0] == Expected(events, cb, false, names)
    requires ListOf(st, Wildcard) == [Some(Check(0))] && x !in events
    ensures Trigger(st, x, args) == st
  {
    assert Ev(x) !in st.callbacks;
    assert Ev(x) !in FiredKeys(events, names);
    DispatchSmall(st, Ev(x), args, 1);
  }

  /** A trigger of a listed event: its payload is stored, and `_all` calls back once every listed event has fired. */
  lemma TailListedState(st: State, events: seq<string>, cb: nat, names: set<string>, x: string, args: seq<Value>)
    requires Distinct(events) && Registry(st, events) && 0 in st.assigns && st.assigns[0] == Expected(events, cb, false, names)
    requires ListOf(st, Wildcard) == [Some(Check(0))] && x in events && ListOf(st, Ev(x)) == [Some(Record(0, Ev(x)))]
    ensures var fired := st.fired[Ev(x) := Head(args)];
      var covered := forall e :: e in events ==> e in names + {x};
      Trigger(st, x, args)
        == st.(fired := fired, assigns := st.assigns[0 := Expected(events, cb, false, names + {x})],
               log := st.log + if covered then [Call(cb, FiredData(fired, EvKeys(events)))] else [])
  {
    var k := Ev(x);
    var st1 := st.(fired := st.fired[k := Head(args)], assigns := st.assigns[0 := Expected(events, cb, false, names + {x})]);
    TailRecord(st, events, cb, names, x, args);
    assert k in FiredKeys(events, names + {x});
    DispatchSmall(st, k, args, 1);
    TailCheck(st1, events, cb, names + {x}, k, args);
  }

  /** `tail`'s `bind(key)` listener stores the payload and flags the key. */
  lemma TailRecord(st: State, events: seq<string>, cb: nat, names: set<string>, x: string, args: seq<Value>)
    requires Distinct(events) && Registry(st, events) && 0 in st.assigns && st.assigns[0] == Expected(events, cb, false, names)
    requires x in events && ListOf(st, Ev(x)) == [Some(Record(0, Ev(x)))]
    ensures PassSmall(st, st.callbacks[Ev(x)], args, 1)
         == st.(fired := st.fired[Ev(x) := Head(args)], assigns := st.assigns[0 := Expected(events, cb, false, names + {x})])
  {
    var k := Ev(x);
    ExpectedRecord(events, cb, false, names, x);
    assert PassSmall(st, st.callbacks[k], args, 1) == RecordFiring(st, 0, k, Head(args));
  }

  /** The wildcard pass after a listed event has been recorded: `_all` calls back once every listed event is flagged. */
  lemma TailCheck(st1: State, events: seq<string>, cb: nat, names: set<string>, k: Key, args: seq<Value>)
    requires Registry(st1, events) && 0 in st1.assigns && st1.assigns[0] == Expected(events, cb, false, names)
    requires k in FiredKeys(events, names) && ListOf(st1, Wildcard) == [Some(Check(0))]
    ensures var covered := forall e :: e in events ==> e in names;
      PassSmall(st1, st1.callbacks[Wildcard], [EventName(k)] + args, 1)
        == st1.(log := st1.log + if covered then [Call(cb, FiredData(st1.fired, EvKeys(events)))] else [])
  {
    CountInFull(events, names);
    assert PassSmall(st1, st1.callbacks[Wildcard], [EventName(k)] + args, 1) == CheckAll(st1, 0, EventName(k));
  }

  lemma TailQuietInv(st: State, events: seq<string>, cb: nat, t: seq<Firing>, f: Firing)
    requires Distinct(events) && TailInv(st, events, cb, t) && f.name !in events
    ensures TailInv(st, events, cb, t + [f])
  {
    var names := NamesFired(t);
    NamesFiredSnoc(t, f);
    ExpectedRecord(events, cb, false, names, f.name);
    assert (t + [f])[..|t|] == t;
    assert Covered(events, t + [f]) == Covered(events, t);
    forall e | e in events && e in NamesFired(t + [f])
      ensures Ev(e) in st.fired && st.fired[Ev(e)] == Head(LastArgs(t + [f], e))
    {
      LastArgsSnoc(t, f, e);
    }
  }

  lemma TailListedInv(st: State, r: State, events: seq<string>, cb: nat, t: seq<Firing>, f: Firing)
    requires Distinct(events) && TailInv(st, events, cb, t) && f.name in events
    requires var fired := st.fired[Ev(f.name) := Head(f.args)];
      var covered := forall e :: e in events ==> e in NamesFired(t) + {f.name};
      r == st.(fired := fired, assigns := st.assigns[0 := Expected(events, cb, false, NamesFired(t) + {f.name})],
               log := st.log + if covered then [Call(cb, FiredData(fired, EvKeys(events)))] else [])
    ensures TailInv(r, events, cb, t + [f])
  {
    var names := NamesFired(t + [f]);
    NamesFiredSnoc(t, f);
    assert r.lists == st.lists && r.callbacks == st.callbacks;
    assert Registry(r, events);
    assert EventLists(r, events, names, false);
    assert ListOf(r, Wildcard) == [Some(Check(0))];
    assert r.assigns[0] == Expected(events, cb, false, names);
    LastFiredListed(st, r, events, t, f);
    TailLogStep(events, cb, t, f);
    var covered := forall e :: e in events ==> e in NamesFired(t) + {f.name};
    assert covered == Covered(events, t + [f]);
    if covered {
      FiredLatest(r, events, t + [f]);
      assert r.log == TailLog(events, cb, t + [f]);
    } else {
      assert r.log == TailLog(events, cb, t + [f]);
    }
  }

  /** Once every listed event has fired, `_all`'s loop over `_fired` reads the latest payloads. */
  lemma FiredLatest(st: State, events: seq<string>, t: seq<Firing>)
    requires LastFired(st, events, t) && Covered(events, t)
    ensures FiredData(st.fired, EvKeys(events)) == LatestData(events, t)
  {
    forall i | 0 <= i < |events| ensures Ev(events[i]) in st.fired && FiredData(st.fired, EvKeys(events))[i] == LatestData(events, t)[i] {
      assert events[i] in events;
    }
  }

  lemma LastFiredListed(st: State, r: State, events: seq<string>, t: seq<Firing>, f: Firing)
    requires LastFired(st, events, t) && r.fired == st.fired[Ev(f.name) := Head(f.args)]
    ensures LastFired(r, events, t + [f])
  {
    NamesFiredSnoc(t, f);
    forall e | e in events && e in NamesFired(t + [f])
      ensures Ev(e) in r.fired && r.fired[Ev(e)] == Head(LastArgs(t + [f], e))
    {
      LastArgsSnoc(t, f, e);
    }
  }

  lemma TailLogStep(events: seq<string>, cb: nat, t: seq<Firing>, f: Firing)
    ensures TailLog(events, cb, t + [f])
         == TailLog(events, cb, t) + (if f.name in events && Covered(events, t + [f]) then [Call(cb, LatestData(events, t + [f]))] else [])
  {
    assert (t + [f])[..|t|] == t;
  }

  lemma TailStep(st: State, events: seq<string>, cb: nat, t: seq<Firing>, f: Firing)
    requires Distinct(events) && TailInv(st, events, cb, t)
    ensures TailInv(Trigger(st, f.name, f.args), events, cb, t + [f])
  {
    if f.name in events {
      TailListedState(st, events, cb, NamesFired(t), f.name, f.args);
      TailListedInv(st, Trigger(st, f.name, f.args), events, cb, t, f);
    } else {
      TailUnlistedState(st, events, cb, NamesFired(t), f.name, f.args);
      TailQuietInv(st, events, cb, t, f);
    }
  }

  lemma {:induction false} TailRun(st0: State, events: seq<string>, cb: nat, t: seq<Firing>)
    requires Distinct(events) && TailInv(st0, events, cb, [])
    ensures TailInv(Run(st0, t), events, cb, t)
  {
    if t != [] {
      var n := |t| - 1;
      var t0, f := t[..n], t[n];
      assert t0 + [f] == t;
      TailRun(st0, events, cb, t0);
      var prev := Run(st0, t0);
      TailStep(prev, events, cb, t0, f);
      assert Run(st0, t) == Trigger(prev, f.name, f.args);
    }
  }

  /**
   * `tail(events..., cb)` followed by any sequence of triggers: `cb` is
   * called once for every firing of a listed event from the moment all
   * listed events have fired, each time with the latest payload of each.
   */
  lemma TailCallsBackEveryTime(events: seq<string>, cb: nat, t: seq<Firing>)
    requires |events| >= 1 && Distinct(events) && AllEvent !in events
    ensures Run(Tail(Empty(), Names(events) + [Fn(cb)]), t).log == TailLog(events, cb, t)
  {
    TailBase(events, cb);
    TailRun(Setup(events, cb, false), events, cb, t);
  }

  /** `tail(events..., cb)` followed by a trace that does not fire every listed event: `cb` has not been called. */
  lemma TailQuietUntilCovered(events: seq<string>, cb: nat, t: seq<Firing>)
    requires |events| >= 1 && Distinct(events) && AllEvent !in events
    requires !Covered(events, t)
    ensures Run(Tail(Empty(), Names(events) + [Fn(cb)]), t).log == []
  {
    TailCallsBackEveryTime(events, cb, t);
    TailLogQuiet(events, cb, t);
  }

  /** Before every listed event has fired, the reference log of `tail` is empty. */
  lemma {:induction false} TailLogQuiet(events: seq<string>, cb: nat, t: seq<Firing>)
    requires !Covered(events, t)
    ensures TailLog(events, cb, t) == []
  {
    if t != [] {
      var n := |t| - 1;
      NamesFiredSnoc(t[..n], t[n]);
      assert t[..n] + [t[n]] == t;
      assert !Covered(events, t[..n]);
      TailLogQuiet(events, cb, t[..n]);
    }
  }

  /**
   * After `tail(events..., cb)`, once every listed event has fired, each
   * further firing of a listed one calls back once more, with that event's
   * new payload and the others' unchanged.
   */
  lemma TailCallsAgain(events: seq<string>, cb: nat, t: seq<Firing>, f: Firing)
    requires |events| >= 1 && Distinct(events) && AllEvent !in events
    requires Covered(events, t) && f.name in events
    ensures Covered(events, t + [f])
    ensures var st := Tail(Empty(), Names(events) + [Fn(cb)]);
      Run(st, t + [f]).log == Run(st, t).log + [Call(cb, LatestData(events, t + [f]))]
    ensures forall i :: 0 <= i < |events| ==>
      LatestData(events, t + [f])[i] == if events[i] == f.name then Head(f.args) else LatestData(events, t)[i]
  {
    TailCallsBackEveryTime(events, cb, t);
    TailCallsBackEveryTime(events, cb, t + [f]);
    NamesFiredSnoc(t, f);
    assert (t + [f])[..|t|] == t;
    forall i | 0 <= i < |events| ensures LastArgs(t + [f], events[i]) == if events[i] == f.name then f.args else LastArgs(t, events[i]) {
      LastArgsSnoc(t, f, events[i]);
    }
  }

  /**
   * `_assign` with fewer than three arguments, or whose callback is not a
   * function, binds nothing: on a fresh proxy no later trigger calls anything.
   */
  lemma AssignRejects(st: State, args: seq<Arg>, isOnce: bool, t: seq<Firing>)
    requires |args| < 2 || args[|args| - 1].Name?
    ensures Assign(st, args, isOnce) == st
    ensures Run(Assign(Empty(), args, isOnce), t) == Empty()
  {
    RunUnbound(Empty(), t);
  }
}

/**
 * `assign` of eventproxy.js (the older version) on a fresh proxy, over any
 * sequence of triggers. In one-shot mode the callback runs once, when the
 * last listed event fires for the first time, with the first argument
 * list of each event. In "persistent" mode it runs once per round, a round
 * being the shortest stretch of firings since the previous round that
 * covers every listed event, with the first argument list of each event
 * within that round.
 */
module OldAssign {
  import opened Common
  import opened Slots
  import opened OldModel
  import opened OldDispatch

  // ---------------------------------------------------------------------
  // The reference: rounds of firings
  // ---------------------------------------------------------------------

  /** The firings since the last completed round: a round ends at the firing that covers every listed event. */
  function Pending(events: seq<string>, t: seq<Firing>): (p: seq<Firing>)
    ensures !Covered(events, p) || p == []
  {
    if t == [] then []
    else
      var p := Pending(events, t[..|t| - 1]) + [t[|t| - 1]];
      if Covered(events, p) then [] else p
  }

  /** The callback's arguments for a round: the first argument list of each listed event in it, in listed order. */
  function RoundData(events: seq<string>, p: seq<Firing>): (data: seq<Value>)
    requires Covered(events, p)
    ensures |data| == |events|
  {
    seq(|events|, i requires 0 <= i < |events| => Arr(FirstArgs(p, events[i])))
  }

  /** The calls of a persistent `assign`'s callback: one at the end of each round. */
  function PersistLog(events: seq<string>, cb: nat, t: seq<Firing>): seq<Call> {
    if t == [] then []
    else
      var p := Pending(events, t[..|t| - 1]) + [t[|t| - 1]];
      PersistLog(events, cb, t[..|t| - 1]) + (if Covered(events, p) then [Call(cb, RoundData(events, p))] else [])
  }

  /** A round's data only depends on the round's first firings: a later firing leaves it alone. */
  lemma RoundDataSnoc(events: seq<string>, p: seq<Firing>, f: Firing)
    requires Covered(events, p)
    ensures Covered(events, p + [f]) && RoundData(events, p + [f]) == RoundData(events, p)
  {
    NamesFiredSnoc(p, f);
    forall i | 0 <= i < |events| ensures FirstArgs(p + [f], events[i]) == FirstArgs(p, events[i]) {
      FirstArgsSnoc(p, f, events[i]);
    }
  }

  // ---------------------------------------------------------------------
  // The proxy between firings
  // ---------------------------------------------------------------------

  /** What the lemmas ask of the listed names: some, distinct, and neither 'all' nor falsy. */
  predicate Good(events: seq<string>) {
    |events| >= 1 && Distinct(events) && "all" !in events && "" !in events
  }

  /** A `once` wrapper of the record listener of `e` for instance 0. */
  predicate RecordWrapper(l: Listener, e: string) {
    l.Wrapper? && l.ev == Name(e) && l.inner == Record(0, Name(e))
  }

  /** The array of a listed event that has not fired in the current round: its wrapper last, after at most one null slot. */
  predicate Armed(s: ListenerList, e: string) {
    |s| >= 1 && Dead(s[..|s| - 1]) && s[|s| - 1].Some? && RecordWrapper(s[|s| - 1].value, e)
  }

  /** `s2` is `s1` with a record wrapper of `e` pushed. */
  predicate Extended(s2: ListenerList, s1: ListenerList, e: string) {
    |s2| == |s1| + 1 && s2[..|s1|] == s1 && s2[|s1|].Some? && RecordWrapper(s2[|s1|].value, e)
  }

  /** The keys bound: the listed names and 'all'. */
  ghost predicate Keys(st: State, events: seq<string>) {
    && Valid(st)
    && Wildcard in st.callbacks
    && (forall x :: Ev(x) in st.callbacks <==> x in events)
  }

  /** Each listed event's array: dead once it fired in the round, armed before. */
  ghost predicate EventLists(st: State, events: seq<string>, names: set<string>) {
    forall e :: e in events ==> if e in names then Dead(ListOf(st, Ev(e))) else Armed(ListOf(st, Ev(e)), e)
  }

  /** `_fired` holds the first argument list of each listed event fired in the round. */
  ghost predicate FirstFired(st: State, events: seq<string>, p: seq<Firing>) {
    forall e :: e in events && e in NamesFired(p) ==> Ev(e) in st.fired && st.fired[Ev(e)] == FirstArgs(p, e)
  }

  /** Instance 0's closure state: the count is the number of listed events fired in the round. */
  ghost predicate Counted(st: State, events: seq<string>, cb: nat, isOnce: bool, names: set<string>) {
    0 in st.assigns && st.assigns[0] == AssignState(Names(events), cb, isOnce, CountIn(events, names))
  }

  /** The proxy in the middle of a round `p` that has not yet covered every listed event. */
  ghost predicate Waiting(st: State, events: seq<string>, cb: nat, isOnce: bool, p: seq<Firing>) {
    && Keys(st, events)
    && EventLists(st, events, NamesFired(p))
    && ListOf(st, Wildcard) == [Some(Watch(0))]
    && FirstFired(st, events, p)
    && Counted(st, events, cb, isOnce, NamesFired(p))
  }

  /** The proxy after a one-shot `assign` called back: nothing live left. */
  ghost predicate Spent(st: State, events: seq<string>) {
    && Keys(st, events)
    && (forall e :: e in events ==> Dead(ListOf(st, Ev(e))))
    && Dead(ListOf(st, Wildcard))
  }

  // ---------------------------------------------------------------------
  // Setting up
  // ---------------------------------------------------------------------

  /** One `once(e, bind(e))` of the binding loop: a record wrapper pushed onto the array of `e`, nothing else changed. */
  lemma OnceRecord(st: State, e: string)
    requires Valid(st) && e != "all"
    ensures var r := Once(st, Name(e), Record(0, Name(e)));
      && Valid(r) && r == st.(lists := r.lists, callbacks := r.callbacks, nextId := r.nextId)
      && r.callbacks.Keys == st.callbacks.Keys + {Ev(e)}
      && Extended(ListOf(r, Ev(e)), ListOf(st, Ev(e)), e)
      && (forall k :: k != Ev(e) ==> ListOf(r, k) == ListOf(st, k))
  {
    assert ArgKey(Name(e)) == Ev(e);
    var s := ListOf(st, Ev(e));
    var w := Wrapper(st.nextId, Name(e), Record(0, Name(e)));
    assert (s + [Some(w)])[..|s|] == s;
  }

  /** The binding loop pushes one record wrapper onto the array of each listed event from `i` on, and touches nothing else. */
  lemma {:induction false} BindRecordsEffect(st: State, events: seq<string>, i: nat)
    requires Valid(st) && i <= |events| && Distinct(events[i..]) && "all" !in events
    ensures var r := BindRecords(st, 0, Names(events), i);
      && Valid(r) && r == st.(lists := r.lists, callbacks := r.callbacks, nextId := r.nextId)
      && (forall x :: Ev(x) in r.callbacks <==> Ev(x) in st.callbacks || x in events[i..])
      && (Wildcard in r.callbacks <==> Wildcard in st.callbacks)
      && (forall e :: e in events[i..] ==> Extended(ListOf(r, Ev(e)), ListOf(st, Ev(e)), e))
      && (forall x :: x !in events[i..] ==> ListOf(r, Ev(x)) == ListOf(st, Ev(x)))
      && ListOf(r, Wildcard) == ListOf(st, Wildcard)
    decreases |events| - i
  {
    if i < |events| {
      var e := events[i];
      assert Names(events)[i] == Name(e);
      var st1 := Once(st, Name(e), Record(0, Name(e)));
      OnceRecord(st, e);
      var s := events[i..];
      assert s[1..] == events[i + 1..];
      DistinctTail(s);
      BindRecordsEffect(st1, events, i + 1);
      var r := BindRecords(st1, 0, Names(events), i + 1);
      assert r == BindRecords(st, 0, Names(events), i);
      assert forall x :: x in s <==> x == e || x in s[1..];
      forall x | x !in s ensures ListOf(r, Ev(x)) == ListOf(st, Ev(x)) {
        assert x !in s[1..] && Ev(x) != Ev(e);
      }
      forall x | x in s ensures Extended(ListOf(r, Ev(x)), ListOf(st, Ev(x)), x) {
        if x != e {
          assert x in s[1..] && Ev(x) != Ev(e);
        }
      }
    }
  }

  /** A dead array with a record wrapper pushed is armed. */
  lemma ArmedExtended(s2: ListenerList, s1: ListenerList, e: string)
    requires Dead(s1) && Extended(s2, s1, e)
    ensures Armed(s2, e)
  {
    assert s2[..|s2| - 1] == s1;
  }

  /** Listed arrays that are all dead, each with a record wrapper pushed: all armed. */
  lemma ArmAll(st: State, st2: State, events: seq<string>)
    requires forall e :: e in events ==> Dead(ListOf(st, Ev(e))) && Extended(ListOf(st2, Ev(e)), ListOf(st, Ev(e)), e)
    ensures EventLists(st2, events, {})
  {
    forall e | e in events ensures Armed(ListOf(st2, Ev(e)), e) {
      ArmedExtended(ListOf(st2, Ev(e)), ListOf(st, Ev(e)), e);
    }
  }

  /** The argument checks of `assign` accept the names, a function and an optional "persistent". */
  lemma SetupArm(events: seq<string>, cb: nat, isOnce: bool)
    requires |events| >= 1
    ensures var args := Names(events) + (if isOnce then [Fn(cb)] else [Fn(cb), Name("persistent")]);
      Assign(Empty(), args) == Arm(Empty(), Names(events), cb, isOnce)
  {
    var args := Names(events) + (if isOnce then [Fn(cb)] else [Fn(cb), Name("persistent")]);
    assert args[..|events|] == Names(events);
    assert args[|events|] == Fn(cb);
    if isOnce {
      assert args[|args| - 1].Fn?;
    } else {
      assert args[|args| - 1] == Name("persistent") && args[|args| - 2].Fn?;
    }
    assert ParseAssign(args) == Some(Parsed(Names(events), cb, isOnce));
  }

  /** `bind("all", all)` on a proxy without 'all': a one-slot array for it, nothing else changed. */
  lemma BindWatch(st: State)
    requires Valid(st) && Wildcard !in st.callbacks
    ensures var r := Bind(st, Name("all"), Watch(0));
      && Valid(r) && r == st.(lists := r.lists, callbacks := r.callbacks)
      && r.callbacks.Keys == st.callbacks.Keys + {Wildcard}
      && ListOf(r, Wildcard) == [Some(Watch(0))]
      && (forall k :: k != Wildcard ==> ListOf(r, k) == ListOf(st, k))
  {
    assert ArgKey(Name("all")) == Wildcard;
  }

  /** The binding loop on a fresh proxy: one record wrapper on each listed event, nothing on 'all'. */
  lemma RecordsShape(events: seq<string>, cb: nat, isOnce: bool)
    requires Good(events)
    ensures var st := BindRecords(Opened(Empty(), Names(events), cb, isOnce), 0, Names(events), 0);
      && Valid(st) && Wildcard !in st.callbacks
      && (forall x :: Ev(x) in st.callbacks <==> x in events)
      && (forall e :: e in events ==> Extended(ListOf(st, Ev(e)), [], e))
      && st.assigns == Opened(Empty(), Names(events), cb, isOnce).assigns && st.log == []
  {
    var st1 := Opened(Empty(), Names(events), cb, isOnce);
    assert events[0..] == events;
    assert forall k :: ListOf(st1, k) == [];
    BindRecordsEffect(st1, events, 0);
  }

  /** What the rest of `assign` builds on a fresh proxy: one record wrapper per listed event, `all` on 'all'. */
  lemma ArmShape(events: seq<string>, cb: nat, isOnce: bool)
    requires Good(events)
    ensures var st := Arm(Empty(), Names(events), cb, isOnce);
      && Keys(st, events) && ListOf(st, Wildcard) == [Some(Watch(0))]
      && (forall e :: e in events ==> Extended(ListOf(st, Ev(e)), [], e))
      && 0 in st.assigns && st.assigns[0] == AssignState(Names(events), cb, isOnce, 0) && st.log == []
  {
    RecordsShape(events, cb, isOnce);
    BindWatch(BindRecords(Opened(Empty(), Names(events), cb, isOnce), 0, Names(events), 0));
  }

  /** On a fresh proxy the rest of `assign` arms every listed event and binds `all` on 'all'. */
  lemma ArmWaiting(events: seq<string>, cb: nat, isOnce: bool)
    requires Good(events)
    ensures var st := Arm(Empty(), Names(events), cb, isOnce);
      Waiting(st, events, cb, isOnce, []) && st.log == []
  {
    ArmShape(events, cb, isOnce);
    var st := Arm(Empty(), Names(events), cb, isOnce);
    forall e | e in events ensures Armed(ListOf(st, Ev(e)), e) {
      ArmedExtended(ListOf(st, Ev(e)), [], e);
    }
    CountInNone(events);
    assert NamesFired([]) == {};
  }

  /** `assign(events..., cb [, "persistent"])` on a fresh proxy: every listed event armed, `all` on 'all'. */
  lemma SetupWaiting(events: seq<string>, cb: nat, isOnce: bool)
    requires Good(events)
    ensures var args := Names(events) + (if isOnce then [Fn(cb)] else [Fn(cb), Name("persistent")]);
      Waiting(Assign(Empty(), args), events, cb, isOnce, []) && Assign(Empty(), args).log == []
  {
    SetupArm(events, cb, isOnce);
    ArmWaiting(events, cb, isOnce);
  }

  // ---------------------------------------------------------------------
  // One trigger
  // ---------------------------------------------------------------------

  /** A pass over an array holding only `all`: one call of it. */
  lemma PassWatch(st: State, r: nat, args: seq<Value>)
    requires Deref(st.lists, r) == [Some(Watch(0))]
    ensures Pass(st, r, args, 0, |Deref(st.lists, r)|) == WatchAll(st, 0)
  {
  }

  /** `all` before the round is complete: it returns at once. */
  lemma WatchQuiet(st: State, events: seq<string>, cb: nat, isOnce: bool, names: set<string>)
    requires Counted(st, events, cb, isOnce, names) && !(forall e :: e in events ==> e in names)
    ensures WatchAll(st, 0) == st
  {
    CountInFull(events, names);
  }

  /** A trigger of a name that is not listed, in the middle of a round: nothing happens. */
  lemma QuietTrigger(st: State, events: seq<string>, cb: nat, isOnce: bool, p: seq<Firing>, f: Firing)
    requires Good(events) && Waiting(st, events, cb, isOnce, p) && !Covered(events, p) && f.name !in events
    ensures Trigger(st, f.name, f.args) == st
  {
    WatchQuiet(st, events, cb, isOnce, NamesFired(p));
    var calls := st.callbacks;
    var k := NameKey(f.name);
    if f.name == "all" {
      PassWatch(st, calls[Wildcard], f.args);
    } else {
      assert k !in calls;
    }
    PassWatch(st, calls[Wildcard], [Str(f.name)] + f.args);
  }

  /** The round goes on after a firing of a name that is not listed. */
  lemma QuietWaiting(st: State, events: seq<string>, cb: nat, isOnce: bool, p: seq<Firing>, f: Firing)
    requires Good(events) && Waiting(st, events, cb, isOnce, p) && !Covered(events, p) && f.name !in events
    ensures Waiting(st, events, cb, isOnce, p + [f]) && !Covered(events, p + [f])
  {
    NamesFiredSnoc(p, f);
    CountInAdd(events, NamesFired(p), f.name);
    forall e | e in events && e in NamesFired(p + [f]) ensures FirstArgs(p + [f], e) == FirstArgs(p, e) {
      FirstArgsSnoc(p, f, e);
    }
  }

  /** The state once the record wrapper of `e` at array `r` took a firing: slot nulled, data stored, count up. */
  function Took(st: State, r: nat, e: string, args: seq<Value>): State
    requires r < |st.lists| && 0 in st.assigns
  {
    var a := st.assigns[0];
    st.(lists := st.lists[r := [None]], fired := st.fired[Ev(e) := args], assigns := st.assigns[0 := a.(times := a.times + 1)])
  }

  /** The record wrapper of `e` alone in its array: called, then nulled by its own `unbind`. */
  lemma ArmedInvoke(st: State, e: string, args: seq<Value>, r: nat, w: Listener)
    requires Ev(e) in st.callbacks && st.callbacks[Ev(e)] == r && r < |st.lists| && 0 in st.assigns && e != "" && e != "all"
    requires st.lists[r] == [Some(w)] && RecordWrapper(w, e)
    ensures Pass(st, r, args, 0, 1) == Took(st, r, e, args)
  {
    assert ArgKey(Name(e)) == Ev(e);
    var st1 := RecordData(st, 0, Name(e), args);
    assert st1.lists == st.lists && st1.callbacks == st.callbacks;
    assert NullFirst([Some(w)], w) == [None];
    assert Unbind(st1, Some(Name(e)), Some(w)) == st1.(lists := st.lists[r := [None]]);
    assert Invoke(st, w, args) == Unbind(st1, Some(Name(e)), Some(w));
    assert Pass(st, r, args, 0, 1) == Pass(Invoke(st, w, args), r, args, 1, 1);
  }

  /** The pass over the array of a listed event that fires for the first time in the round: its wrapper records and nulls itself. */
  lemma ArmedPass(st: State, e: string, args: seq<Value>)
    requires Ev(e) in st.callbacks && st.callbacks[Ev(e)] < |st.lists| && 0 in st.assigns && e != "" && e != "all"
    requires Armed(st.lists[st.callbacks[Ev(e)]], e)
    ensures var r := st.callbacks[Ev(e)];
      Pass(st, r, args, 0, |Deref(st.lists, r)|) == Took(st, r, e, args)
  {
    var r := st.callbacks[Ev(e)];
    var s := st.lists[r];
    var w := s[|s| - 1].value;
    if |s| == 1 {
      ArmedInvoke(st, e, args, r, w);
    } else {
      assert s == [None, Some(w)];
      var st1 := st.(lists := st.lists[r := [Some(w)]]);
      assert Splice(s, 0) == [Some(w)];
      assert Pass(st, r, args, 0, 2) == Pass(st1, r, args, 0, 1);
      ArmedInvoke(st1, e, args, r, w);
      assert st1.lists[r := [None]] == st.lists[r := [None]];
    }
  }

  /** The pass over a dead array: it ends up empty, and nothing else changes. */
  lemma DeadPass(st: State, r: nat, args: seq<Value>)
    requires r < |st.lists| && Dead(st.lists[r])
    ensures Pass(st, r, args, 0, |Deref(st.lists, r)|) == st.(lists := st.lists[r := []])
  {
    if st.lists[r] == [None] {
      assert Splice<Listener>([None], 0) == [];
      assert Pass(st, r, args, 0, 1) == Pass(st.(lists := st.lists[r := []]), r, args, 0, 0);
    } else {
      assert st.lists[r := []] == st.lists;
    }
  }

  /** The state after the pass over the array of a listed event `e`: emptied when dead, taken when armed. */
  function AfterListed(st: State, e: string, dead: bool, args: seq<Value>): State
    requires Ev(e) in st.callbacks && st.callbacks[Ev(e)] < |st.lists| && 0 in st.assigns
  {
    var r := st.callbacks[Ev(e)];
    if dead then st.(lists := st.lists[r := []]) else Took(st, r, e, args)
  }

  lemma ListedPass(st: State, e: string, dead: bool, args: seq<Value>)
    requires Ev(e) in st.callbacks && st.callbacks[Ev(e)] < |st.lists| && 0 in st.assigns && e != "" && e != "all"
    requires if dead then Dead(st.lists[st.callbacks[Ev(e)]]) else Armed(st.lists[st.callbacks[Ev(e)]], e)
    ensures var r := st.callbacks[Ev(e)];
      Pass(st, r, args, 0, |Deref(st.lists, r)|) == AfterListed(st, e, dead, args)
  {
    if dead {
      DeadPass(st, st.callbacks[Ev(e)], args);
    } else {
      ArmedPass(st, e, args);
    }
  }

  /** What that pass changes: the array of `e`, and `_fired` and the count when armed. */
  lemma AfterListedFrame(st: State, e: string, dead: bool, args: seq<Value>)
    requires Valid(st) && Ev(e) in st.callbacks && 0 in st.assigns
    ensures var st1 := AfterListed(st, e, dead, args);
      && Valid(st1) && st1.callbacks == st.callbacks && st1.log == st.log
      && ListOf(st1, Ev(e)) == (if dead then [] else [None])
      && (forall k :: k != Ev(e) ==> ListOf(st1, k) == ListOf(st, k))
      && st1.fired == (if dead then st.fired else st.fired[Ev(e) := args])
      && 0 in st1.assigns
      && st1.assigns[0] == (if dead then st.assigns[0] else st.assigns[0].(times := st.assigns[0].times + 1))
  {
  }

  /** The listed arrays after a firing of `e`: that of `e` is dead, the others unchanged. */
  lemma EventListsStep(st: State, st1: State, events: seq<string>, names: set<string>, e: string)
    requires EventLists(st, events, names) && Dead(ListOf(st1, Ev(e)))
    requires forall k :: k != Ev(e) ==> ListOf(st1, k) == ListOf(st, k)
    ensures EventLists(st1, events, names + {e})
  {
  }

  /** `_fired` after a firing: set only by the first firing of the round. */
  lemma FiredStep(st: State, st1: State, events: seq<string>, p: seq<Firing>, f: Firing)
    requires FirstFired(st, events, p) && f.name in events
    requires st1.fired == if f.name in NamesFired(p) then st.fired else st.fired[Ev(f.name) := f.args]
    ensures FirstFired(st1, events, p + [f])
  {
    NamesFiredSnoc(p, f);
    forall x | x in events && x in NamesFired(p + [f]) ensures Ev(x) in st1.fired && st1.fired[Ev(x)] == FirstArgs(p + [f], x) {
      FirstArgsSnoc(p, f, x);
    }
  }

  /** The count after a firing of a listed event: up by one for its first firing in the round. */
  lemma CountedStep(st: State, st1: State, events: seq<string>, cb: nat, isOnce: bool, names: set<string>, e: string)
    requires Distinct(events) && Counted(st, events, cb, isOnce, names) && e in events && 0 in st1.assigns
    requires st1.assigns[0] == if e in names then st.assigns[0] else st.assigns[0].(times := st.assigns[0].times + 1)
    ensures Counted(st1, events, cb, isOnce, names + {e})
  {
    CountInAdd(events, names, e);
  }

  /** After that pass the round has taken in the firing: arrays, `_fired` and the count are those of `p + [f]`. */
  lemma ListedWaiting(st: State, events: seq<string>, cb: nat, isOnce: bool, p: seq<Firing>, f: Firing)
    requires Good(events) && Waiting(st, events, cb, isOnce, p) && f.name in events
    ensures var st1 := AfterListed(st, f.name, f.name in NamesFired(p), f.args);
      && Keys(st1, events)
      && EventLists(st1, events, NamesFired(p + [f]))
      && ListOf(st1, Wildcard) == [Some(Watch(0))]
      && FirstFired(st1, events, p + [f])
      && Counted(st1, events, cb, isOnce, NamesFired(p + [f]))
      && st1.callbacks == st.callbacks && st1.log == st.log
  {
    var e := f.name;
    var dead := e in NamesFired(p);
    var st1 := AfterListed(st, e, dead, f.args);
    AfterListedFrame(st, e, dead, f.args);
    NamesFiredSnoc(p, f);
    EventListsStep(st, st1, events, NamesFired(p), e);
    FiredStep(st, st1, events, p, f);
    CountedStep(st, st1, events, cb, isOnce, NamesFired(p), e);
  }

  /** A trigger of a listed event in the middle of a round: its pass, then `all`. */
  lemma ListedTrigger(st: State, events: seq<string>, cb: nat, isOnce: bool, p: seq<Firing>, f: Firing)
    requires Good(events) && Waiting(st, events, cb, isOnce, p) && f.name in events
    ensures Trigger(st, f.name, f.args) == WatchAll(AfterListed(st, f.name, f.name in NamesFired(p), f.args), 0)
  {
    var e := f.name;
    var dead := e in NamesFired(p);
    var calls := st.callbacks;
    assert NameKey(e) == Ev(e);
    ListedPass(st, e, dead, f.args);
    var st1 := AfterListed(st, e, dead, f.args);
    AfterListedFrame(st, e, dead, f.args);
    PassWatch(st1, calls[Wildcard], [Str(e)] + f.args);
  }

  /** The loop of `all` over a complete round: the first argument list of each listed event, in listed order. */
  lemma CollectedRound(fired: map<Key, seq<Value>>, events: seq<string>, p: seq<Firing>)
    requires Covered(events, p) && "all" !in events
    requires forall e :: e in events && e in NamesFired(p) ==> Ev(e) in fired && fired[Ev(e)] == FirstArgs(p, e)
    ensures Collected(fired, Names(events)) == RoundData(events, p)
  {
    forall i | 0 <= i < |events|
      ensures events[i] in NamesFired(p) && ArgKey(Name(events[i])) in fired && fired[ArgKey(Name(events[i]))] == FirstArgs(p, events[i])
    {
      assert events[i] in events;
    }
    CollectedIndexed(fired, events, p);
  }

  lemma CollectedIndexed(fired: map<Key, seq<Value>>, events: seq<string>, p: seq<Firing>)
    requires Covered(events, p)
    requires forall i :: 0 <= i < |events| ==>
      events[i] in NamesFired(p) && ArgKey(Name(events[i])) in fired && fired[ArgKey(Name(events[i]))] == FirstArgs(p, events[i])
    ensures Collected(fired, Names(events)) == RoundData(events, p)
  {
    var ns := Names(events);
    var data := Collected(fired, ns);
    assert |data| == |events|;
    forall i | 0 <= i < |events| ensures data[i] == RoundData(events, p)[i] {
      assert ns[i] == Name(events[i]);
    }
  }

  /** `all` once the round is complete: it calls back with the round's data, then re-arms or unbinds itself. */
  lemma WatchFires(st: State, events: seq<string>, cb: nat, isOnce: bool, p: seq<Firing>)
    requires Good(events) && Covered(events, p)
    requires FirstFired(st, events, p) && Counted(st, events, cb, isOnce, NamesFired(p))
    ensures var a := st.assigns[0];
      var st1 := Log(st, cb, RoundData(events, p));
      WatchAll(st, 0)
      == if isOnce then Unbind(st1, Some(Name("all")), Some(Watch(0)))
         else var st2 := BindRecords(st1, 0, Names(events), 0); st2.(assigns := st2.assigns[0 := a.(times := 0)])
  {
    CountInFull(events, NamesFired(p));
    CollectedRound(st.fired, events, p);
  }

  /** Logging a call leaves the proxy's arrays and closure state as they are. */
  lemma LogKeeps(st: State, events: seq<string>, cb: nat, isOnce: bool, p: seq<Firing>, fn: nat, args: seq<Value>)
    requires Keys(st, events) && EventLists(st, events, NamesFired(p)) && ListOf(st, Wildcard) == [Some(Watch(0))]
    requires Counted(st, events, cb, isOnce, NamesFired(p))
    ensures var st1 := Log(st, fn, args);
      Keys(st1, events) && EventLists(st1, events, NamesFired(p)) && ListOf(st1, Wildcard) == [Some(Watch(0))]
      && Counted(st1, events, cb, isOnce, NamesFired(p))
  {
    var st1 := Log(st, fn, args);
    assert forall k :: ListOf(st1, k) == ListOf(st, k);
  }

  /** The keys after the binding loop of a persistent `assign`: the same as before. */
  lemma RearmKeys(st: State, events: seq<string>)
    requires Good(events) && Keys(st, events)
    ensures var st2 := BindRecords(st, 0, Names(events), 0);
      Keys(st2, events) && ListOf(st2, Wildcard) == ListOf(st, Wildcard)
      && forall e :: e in events ==> Extended(ListOf(st2, Ev(e)), ListOf(st, Ev(e)), e)
  {
    assert events[0..] == events;
    BindRecordsEffect(st, events, 0);
  }

  /** The binding loop run again after a covered round: every listed array armed again, 'all' untouched. */
  lemma RearmLists(st: State, events: seq<string>, p: seq<Firing>)
    requires Good(events) && Covered(events, p) && Keys(st, events)
    requires EventLists(st, events, NamesFired(p)) && ListOf(st, Wildcard) == [Some(Watch(0))]
    ensures var st2 := BindRecords(st, 0, Names(events), 0);
      Keys(st2, events) && EventLists(st2, events, {}) && ListOf(st2, Wildcard) == [Some(Watch(0))]
  {
    RearmKeys(st, events);
    var st2 := BindRecords(st, 0, Names(events), 0);
    assert forall e :: e in events ==> Dead(ListOf(st, Ev(e)));
    ArmAll(st, st2, events);
  }

  /** A persistent `assign` after its callback: every listed event armed again, the count reset. */
  lemma RearmWaiting(st: State, events: seq<string>, cb: nat, p: seq<Firing>)
    requires Good(events) && Covered(events, p) && Keys(st, events)
    requires EventLists(st, events, NamesFired(p)) && ListOf(st, Wildcard) == [Some(Watch(0))]
    requires Counted(st, events, cb, false, NamesFired(p))
    ensures var a := st.assigns[0];
      var st2 := BindRecords(st, 0, Names(events), 0);
      Waiting(st2.(assigns := st2.assigns[0 := a.(times := 0)]), events, cb, false, [])
  {
    var a := st.assigns[0];
    RearmLists(st, events, p);
    var st2 := BindRecords(st, 0, Names(events), 0);
    var r := st2.(assigns := st2.assigns[0 := a.(times := 0)]);
    SameArrays(st2, r, events, {});
    assert NamesFired([]) == {};
    CountInNone(events);
    assert Counted(r, events, cb, false, {});
  }

  /** Two states with the same arrays agree on every property of the arrays. */
  lemma SameArrays(st: State, r: State, events: seq<string>, names: set<string>)
    requires r.lists == st.lists && r.callbacks == st.callbacks
    ensures Keys(r, events) == Keys(st, events) && EventLists(r, events, names) == EventLists(st, events, names)
    ensures ListOf(r, Wildcard) == ListOf(st, Wildcard)
  {
  }

  /** A one-shot `assign` after its callback: `all` unbound, nothing live left. */
  lemma UnbindSpent(st: State, events: seq<string>, p: seq<Firing>)
    requires Good(events) && Covered(events, p) && Keys(st, events)
    requires EventLists(st, events, NamesFired(p)) && ListOf(st, Wildcard) == [Some(Watch(0))]
    ensures Spent(Unbind(st, Some(Name("all")), Some(Watch(0))), events)
  {
    assert NullFirst([Some(Watch(0))], Watch(0)) == [None];
  }

  /** A dead array holds no listener: a pass calls nothing and leaves it empty. */
  lemma DeadPlain(s: ListenerList, k: Key, args: seq<Value>)
    requires Dead(s)
    ensures PlainList(s, k) && Calls(s, args) == [] && AfterPass(s) == []
  {
    if s != [] {
      assert s[1..] == [];
    }
  }

  /** The one-shot proxy after its callback: later triggers only splice out dead slots. */
  lemma SpentTrigger(st: State, events: seq<string>, f: Firing)
    requires Good(events) && Spent(st, events)
    ensures var r := Trigger(st, f.name, f.args); Spent(r, events) && r.log == st.log
  {
    TriggerValid(st, f.name, f.args);
    DeadPlain(ListOf(st, Wildcard), Wildcard, [Str(f.name)] + f.args);
    if f.name == "all" {
      DeadPlain(ListOf(st, Wildcard), Wildcard, f.args);
      TriggerWildcardName(st, f.args);
    } else {
      var k := Ev(f.name);
      assert Dead(ListOf(st, k)) by {
        if f.name !in events { assert k !in st.callbacks; }
      }
      DeadPlain(ListOf(st, k), k, f.args);
      TriggerPlain(st, f.name, f.args);
    }
  }

  // ---------------------------------------------------------------------
  // One-shot mode
  // ---------------------------------------------------------------------

  /** A one-shot `assign` after the firings `t`. */
  ghost predicate OneShotInv(st: State, events: seq<string>, cb: nat, t: seq<Firing>) {
    if Covered(events, t) then Spent(st, events) && st.log == [Call(cb, RoundData(events, t))]
    else Waiting(st, events, cb, true, t) && st.log == []
  }

  lemma OneShotStep(st: State, events: seq<string>, cb: nat, t: seq<Firing>, f: Firing)
    requires Good(events) && OneShotInv(st, events, cb, t)
    ensures OneShotInv(Trigger(st, f.name, f.args), events, cb, t + [f])
  {
    if Covered(events, t) {
      SpentTrigger(st, events, f);
      RoundDataSnoc(events, t, f);
    } else if f.name !in events {
      QuietTrigger(st, events, cb, true, t, f);
      QuietWaiting(st, events, cb, true, t, f);
    } else {
      OneShotListed(st, events, cb, t, f);
    }
  }

  lemma OneShotListed(st: State, events: seq<string>, cb: nat, t: seq<Firing>, f: Firing)
    requires Good(events) && Waiting(st, events, cb, true, t) && st.log == [] && !Covered(events, t) && f.name in events
    ensures OneShotInv(Trigger(st, f.name, f.args), events, cb, t + [f])
  {
    var st1 := AfterListed(st, f.name, f.name in NamesFired(t), f.args);
    ListedTrigger(st, events, cb, true, t, f);
    ListedWaiting(st, events, cb, true, t, f);
    if Covered(events, t + [f]) {
      WatchFires(st1, events, cb, true, t + [f]);
      LogKeeps(st1, events, cb, true, t + [f], cb, RoundData(events, t + [f]));
      UnbindSpent(Log(st1, cb, RoundData(events, t + [f])), events, t + [f]);
    } else {
      WatchQuiet(st1, events, cb, true, NamesFired(t + [f]));
    }
  }

  lemma {:induction false} OneShotRun(st0: State, events: seq<string>, cb: nat, t: seq<Firing>)
    requires Good(events) && OneShotInv(st0, events, cb, [])
    ensures OneShotInv(Run(st0, t), events, cb, t)
  {
    if t != [] {
      var t0, f := t[..|t| - 1], t[|t| - 1];
      assert t0 + [f] == t;
      OneShotRun(st0, events, cb, t0);
      var prev := Run(st0, t0);
      OneShotStep(prev, events, cb, t0, f);
      assert Run(st0, t) == Trigger(prev, f.name, f.args);
    }
  }

  /**
   * One-shot `assign(events..., cb)` on a fresh proxy, then any firings:
   * `cb` is called exactly once if every listed event fired, with the first
   * argument list of each in listed order, and never otherwise.
   */
  lemma OneShotCallsBackOnce(events: seq<string>, cb: nat, t: seq<Firing>)
    requires Good(events)
    ensures Run(Assign(Empty(), Names(events) + [Fn(cb)]), t).log
         == if Covered(events, t) then [Call(cb, RoundData(events, t))] else []
  {
    SetupWaiting(events, cb, true);
    var st0 := Assign(Empty(), Names(events) + [Fn(cb)]);
    assert !Covered(events, []) by { assert events[0] in events; }
    OneShotRun(st0, events, cb, t);
  }

  // ---------------------------------------------------------------------
  // Persistent mode
  // ---------------------------------------------------------------------

  /** A persistent `assign` after the firings `t`. */
  ghost predicate PersistInv(st: State, events: seq<string>, cb: nat, t: seq<Firing>) {
    Waiting(st, events, cb, false, Pending(events, t)) && st.log == PersistLog(events, cb, t)
  }

  lemma PersistStep(st: State, events: seq<string>, cb: nat, t: seq<Firing>, f: Firing)
    requires Good(events) && PersistInv(st, events, cb, t)
    ensures PersistInv(Trigger(st, f.name, f.args), events, cb, t + [f])
  {
    var p := Pending(events, t);
    assert (t + [f])[..|t|] == t;
    assert Pending(events, t + [f]) == (if Covered(events, p + [f]) then [] else p + [f]);
    assert !Covered(events, p) by { assert events[0] in events; }
    if f.name !in events {
      QuietTrigger(st, events, cb, false, p, f);
      QuietWaiting(st, events, cb, false, p, f);
    } else {
      PersistListed(st, events, cb, p, f);
    }
  }

  lemma PersistListed(st: State, events: seq<string>, cb: nat, p: seq<Firing>, f: Firing)
    requires Good(events) && Waiting(st, events, cb, false, p) && f.name in events
    ensures var r := Trigger(st, f.name, f.args);
      && Waiting(r, events, cb, false, if Covered(events, p + [f]) then [] else p + [f])
      && r.log == st.log + if Covered(events, p + [f]) then [Call(cb, RoundData(events, p + [f]))] else []
  {
    var q := p + [f];
    var st1 := AfterListed(st, f.name, f.name in NamesFired(p), f.args);
    ListedTrigger(st, events, cb, false, p, f);
    ListedWaiting(st, events, cb, false, p, f);
    assert Waiting(st1, events, cb, false, q);
    if Covered(events, q) {
      PersistFires(st1, events, cb, q);
    } else {
      WatchQuiet(st1, events, cb, false, NamesFired(q));
    }
  }

  /** `all` of a persistent `assign` at the end of a round: the callback, then every listed event armed again. */
  lemma PersistFires(st: State, events: seq<string>, cb: nat, q: seq<Firing>)
    requires Good(events) && Covered(events, q) && Waiting(st, events, cb, false, q)
    ensures var r := WatchAll(st, 0);
      Waiting(r, events, cb, false, []) && r.log == st.log + [Call(cb, RoundData(events, q))]
  {
    WatchFires(st, events, cb, false, q);
    LogKeeps(st, events, cb, false, q, cb, RoundData(events, q));
    RearmWaiting(Log(st, cb, RoundData(events, q)), events, cb, q);
  }

  lemma {:induction false} PersistRun(st0: State, events: seq<string>, cb: nat, t: seq<Firing>)
    requires Good(events) && PersistInv(st0, events, cb, [])
    ensures PersistInv(Run(st0, t), events, cb, t)
  {
    if t != [] {
      var t0, f := t[..|t| - 1], t[|t| - 1];
      assert t0 + [f] == t;
      PersistRun(st0, events, cb, t0);
      var prev := Run(st0, t0);
      PersistStep(prev, events, cb, t0, f);
      assert Run(st0, t) == Trigger(prev, f.name, f.args);
    }
  }

  /**
   * `assign(events..., cb, "persistent")` on a fresh proxy, then any
   * firings: `cb` is called at the end of every round, with the first
   * argument list of each listed event within that round.
   */
  lemma PersistentRounds(events: seq<string>, cb: nat, t: seq<Firing>)
    requires Good(events)
    ensures Run(Assign(Empty(), Names(events) + [Fn(cb), Name("persistent")]), t).log == PersistLog(events, cb, t)
  {
    SetupWaiting(events, cb, false);
    PersistRun(Assign(Empty(), Names(events) + [Fn(cb), Name("persistent")]), events, cb, t);
  }
}

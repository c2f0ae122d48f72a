/**
 * What one `trigger` of lib/eventproxy.js does to lists of plain listeners
 * (user callbacks and `once` wrappers of user callbacks): each live slot is
 * called in list order, first for the event and then for the wildcard;
 * null slots met are spliced out; `once` wrappers null their own slot,
 * so they are called at most once.
 */
module LibDispatch {
  import opened Common
  import opened Slots
  import opened LibModel

  /** A listener bound on `k` whose call only calls a user callback: one of the program's own, or `once`'s wrapper of one. */
  predicate Plain(l: Listener, k: Key) {
    l.User? || (l.Wrapper? && l.ev == k && l.inner.User?)
  }

  predicate PlainList(s: ListenerList, k: Key) {
    forall i :: 0 <= i < |s| && s[i].Some? ==> Plain(s[i].value, k)
  }

  /** No `once` wrapper occupies two slots. */
  predicate WrappersOnce(s: ListenerList) {
    forall i, j :: 0 <= i < j < |s| && s[i].Some? && s[i].value.Wrapper? ==> s[j] != s[i]
  }

  predicate NoWrapper(s: ListenerList) {
    forall i :: 0 <= i < |s| && s[i].Some? ==> !s[i].value.Wrapper?
  }

  /** The user callback a plain listener ends up calling. */
  function Callee(l: Listener): nat {
    match l
    case User(id) => id
    case Wrapper(_, _, inner) => Callee(inner)
    case _ => 0
  }

  /** The user calls made by calling every live slot of `s` with `args`, in slot order. */
  function Calls(s: ListenerList, args: seq<Value>): seq<Call> {
    if s == [] then []
    else (if s[0].Some? then [Call(Callee(s[0].value), args)] else []) + Calls(s[1..], args)
  }

  /** The list a pass leaves behind: null slots spliced out, `once` wrappers nulled, user callbacks kept. */
  function AfterPass(s: ListenerList): ListenerList {
    if s == [] then []
    else
      (match s[0]
       case None => []
       case Some(l) => if l.Wrapper? then [None] else [s[0]])
      + AfterPass(s[1..])
  }

  /** The listeners that stay bound after being called: all but `once` wrappers. */
  function Persistent(ls: seq<Listener>): seq<Listener> {
    if ls == [] then [] else (if ls[0].Wrapper? then [] else [ls[0]]) + Persistent(ls[1..])
  }

  /** The list a pass leaves, element by element. */
  function AfterSlot(o: Option<Listener>): ListenerList {
    match o
    case None => []
    case Some(l) => if l.Wrapper? then [None] else [o]
  }

  lemma AfterPassCons(s: ListenerList)
    requires s != []
    ensures AfterPass(s) == AfterSlot(s[0]) + AfterPass(s[1..])
  {
  }

  /** After a pass the live listeners are the persistent ones of before, in the same relative order. */
  lemma {:induction false} LiveAfterPass(s: ListenerList)
    ensures Live(AfterPass(s)) == Persistent(Live(s))
  {
    if s != [] {
      LiveAfterPass(s[1..]);
      var h := AfterSlot(s[0]);
      AfterPassCons(s);
      LiveAppend(h, AfterPass(s[1..]));
      if s[0].Some? {
        var v := s[0].value;
        assert Live(s) == [v] + Live(s[1..]);
        assert ([v] + Live(s[1..]))[1..] == Live(s[1..]);
        assert Persistent(Live(s)) == (if v.Wrapper? then [] else [v]) + Persistent(Live(s[1..]));
        assert Live(h) == (if v.Wrapper? then [] else [v]) by { assert h[1..] == []; }
      } else {
        assert Live(s) == Live(s[1..]);
      }
    }
  }

  /** A pass leaves no `once` wrapper live, and keeps every surviving listener plain. */
  lemma {:induction false} AfterPassPlain(s: ListenerList, k: Key)
    requires PlainList(s, k)
    ensures NoWrapper(AfterPass(s)) && WrappersOnce(AfterPass(s)) && PlainList(AfterPass(s), k)
  {
    if s != [] {
      assert PlainList(s[1..], k) by {
        forall i | 0 <= i < |s[1..]| && s[1..][i].Some? ensures Plain(s[1..][i].value, k) {
          assert s[1..][i] == s[i + 1];
        }
      }
      AfterPassPlain(s[1..], k);
      var h := AfterSlot(s[0]);
      AfterPassCons(s);
      var a := AfterPass(s);
      forall i | 0 <= i < |a| && a[i].Some? ensures !a[i].value.Wrapper? && Plain(a[i].value, k) {
        if i >= |h| {
          assert a[i] == AfterPass(s[1..])[i - |h|];
        } else {
          assert s[0].Some? && Plain(s[0].value, k);
        }
      }
    }
  }

  /** `NullAll` on a list with exactly one slot holding the wrapper, at `|p|`. */
  lemma NullAllSingle(p: ListenerList, w: Listener, s: ListenerList)
    requires NoWrapper(p) && w.Wrapper? && Some(w) !in s
    ensures NullAll(p + [Some(w)] + s, w) == p + [None] + s
  {
    var a := p + [Some(w)] + s;
    var b := p + [None] + s;
    forall j | 0 <= j < |a| ensures NullAll(a, w)[j] == b[j] {
      if j < |p| {
        assert a[j] == p[j];
      } else if j > |p| {
        assert a[j] == s[j - |p| - 1];
      }
    }
  }

  /** One step of the pass at a null slot: it is spliced out and the bound drops. */
  lemma StepNull(st: State, r: nat, args: seq<Value>, p: ListenerList, s: ListenerList, i: nat, l: int, depth: nat)
    requires r < |st.lists| && st.lists[r] == p + s && i == |p| && l == |p| + |s| && s != [] && s[0].None?
    ensures Pass(st, r, args, i, l, depth) == Pass(st.(lists := st.lists[r := p + s[1..]]), r, args, i, l - 1, depth)
  {
    assert (p + s)[|p|] == s[0];
    assert Splice(p + s, |p|) == p + s[1..];
  }

  /** One step of the pass at a user callback: it is called. */
  lemma StepUser(st: State, r: nat, args: seq<Value>, p: ListenerList, s: ListenerList, i: nat, l: int, depth: nat)
    requires r < |st.lists| && st.lists[r] == p + s && i == |p| && l == |p| + |s| && s != [] && s[0].Some? && s[0].value.User?
    ensures Pass(st, r, args, i, l, depth) == Pass(Log(st, s[0].value.id, args), r, args, i + 1, l, depth)
  {
    assert (p + s)[|p|] == s[0];
  }

  /** One step of the pass at a `once` wrapper bound on `k`: its callback is called and its own slot nulled. */
  lemma StepWrapper(st: State, k: Key, args: seq<Value>, p: ListenerList, s: ListenerList, i: nat, l: int, depth: nat)
    requires k in st.callbacks && st.callbacks[k] < |st.lists| && !FalsyName(k)
    requires st.lists[st.callbacks[k]] == p + s && i == |p| && l == |p| + |s| && s != [] && s[0].Some?
    requires NoWrapper(p) && Plain(s[0].value, k) && s[0].value.Wrapper? && Some(s[0].value) !in s[1..]
    ensures var r := st.callbacks[k];
      Pass(st, r, args, i, l, depth)
      == Pass(Log(st, Callee(s[0].value), args).(lists := st.lists[r := p + [None] + s[1..]]), r, args, i + 1, l, depth)
  {
    var r := st.callbacks[k];
    var x := s[0].value;
    assert (p + s)[|p|] == s[0];
    var st1 := Log(st, Callee(x), args);
    assert Callee(x) == x.inner.id;
    assert Invoke(st, x.inner, args, depth) == st1;
    assert p + s == p + [Some(x)] + s[1..];
    NullAllSingle(p, x, s[1..]);
    assert Invoke(st, x, args, depth) == st1.(lists := st.lists[r := p + [None] + s[1..]]);
  }

  /** The situation of a pass over `callbacks[k]` at index `|p|`: `p` already passed (no wrapper left in it), `s` to come. */
  ghost predicate Midway(st: State, k: Key, p: ListenerList, s: ListenerList, i: nat, l: int) {
    && k in st.callbacks && st.callbacks[k] < |st.lists| && !FalsyName(k)
    && st.lists[st.callbacks[k]] == p + s && i == |p| && l == |p| + |s|
    && NoWrapper(p) && PlainList(s, k) && WrappersOnce(s)
  }

  /** The state at the end of that pass. */
  function Finished(st: State, k: Key, args: seq<Value>, p: ListenerList, s: ListenerList): State
    requires k in st.callbacks && st.callbacks[k] < |st.lists|
  {
    st.(lists := st.lists[st.callbacks[k] := p + AfterPass(s)], log := st.log + Calls(s, args))
  }

  lemma TailPlain(s: ListenerList, k: Key)
    requires s != [] && PlainList(s, k) && WrappersOnce(s)
    ensures PlainList(s[1..], k) && WrappersOnce(s[1..])
    ensures s[0].Some? ==> Plain(s[0].value, k)
    ensures s[0].Some? && s[0].value.Wrapper? ==> Some(s[0].value) !in s[1..]
  {
    forall j | 0 <= j < |s[1..]| ensures s[1..][j] == s[j + 1] { }
  }

  /** The pass from `|p|` to the end, as `AfterPass` and `Calls` describe it. */
  lemma {:induction false} PassPlain(st: State, k: Key, args: seq<Value>, p: ListenerList, s: ListenerList, i: nat, l: int, depth: nat)
    requires Midway(st, k, p, s, i, l)
    ensures Pass(st, st.callbacks[k], args, i, l, depth) == Finished(st, k, args, p, s)
    decreases |s|, 1
  {
    var r := st.callbacks[k];
    if s == [] {
      assert p + s == p;
      assert st.lists[r := p] == st.lists;
    } else if s[0].None? {
      PassPlainNull(st, k, args, p, s, i, l, depth);
    } else if s[0].value.User? {
      PassPlainUser(st, k, args, p, s, i, l, depth);
    } else {
      PassPlainWrapper(st, k, args, p, s, i, l, depth);
    }
  }

  lemma {:induction false} PassPlainNull(st: State, k: Key, args: seq<Value>, p: ListenerList, s: ListenerList, i: nat, l: int, depth: nat)
    requires Midway(st, k, p, s, i, l) && s != [] && s[0].None?
    ensures Pass(st, st.callbacks[k], args, i, l, depth) == Finished(st, k, args, p, s)
    decreases |s|, 0
  {
    var r := st.callbacks[k];
    var s' := s[1..];
    var st' := st.(lists := st.lists[r := p + s']);
    TailPlain(s, k);
    NullHeadPass(s, args);
    StepNull(st, r, args, p, s, i, l, depth);
    assert Midway(st', k, p, s', i, l - 1);
    PassPlain(st', k, args, p, s', i, l - 1, depth);
    UpdateTwice(st.lists, r, p + s', p + AfterPass(s'));
  }

  /** A null head slot calls nothing and is dropped by the pass. */
  lemma NullHeadPass(s: ListenerList, args: seq<Value>)
    requires s != [] && s[0].None?
    ensures AfterPass(s) == AfterPass(s[1..]) && Calls(s, args) == Calls(s[1..], args)
  {
    AfterPassCons(s);
  }

  lemma UpdateTwice<T>(xs: seq<T>, r: nat, a: T, b: T)
    requires r < |xs|
    ensures xs[r := a][r := b] == xs[r := b]
  {
  }

  lemma {:induction false} PassPlainUser(st: State, k: Key, args: seq<Value>, p: ListenerList, s: ListenerList, i: nat, l: int, depth: nat)
    requires Midway(st, k, p, s, i, l) && s != [] && s[0].Some? && s[0].value.User?
    ensures Pass(st, st.callbacks[k], args, i, l, depth) == Finished(st, k, args, p, s)
    decreases |s|, 0
  {
    var st1 := Log(st, s[0].value.id, args);
    FinishedUser(st, k, args, p, s, i, l);
    StepUser(st, st.callbacks[k], args, p, s, i, l, depth);
    PassPlain(st1, k, args, p + [s[0]], s[1..], i + 1, l, depth);
  }

  lemma FinishedUser(st: State, k: Key, args: seq<Value>, p: ListenerList, s: ListenerList, i: nat, l: int)
    requires Midway(st, k, p, s, i, l) && s != [] && s[0].Some? && s[0].value.User?
    ensures var st1 := Log(st, s[0].value.id, args);
      Midway(st1, k, p + [s[0]], s[1..], i + 1, l)
      && Finished(st1, k, args, p + [s[0]], s[1..]) == Finished(st, k, args, p, s)
  {
    var s' := s[1..];
    var x := s[0].value;
    TailPlain(s, k);
    AfterPassCons(s);
    assert Calls(s, args) == [Call(Callee(x), args)] + Calls(s', args);
    var p' := p + [s[0]];
    assert NoWrapper(p') by {
      forall j | 0 <= j < |p'| && p'[j].Some? ensures !p'[j].value.Wrapper? {
        if j < |p| { assert p'[j] == p[j]; }
      }
    }
    assert p' + AfterPass(s') == p + AfterPass(s);
    assert p' + s' == p + s;
  }

  lemma {:induction false} PassPlainWrapper(st: State, k: Key, args: seq<Value>, p: ListenerList, s: ListenerList, i: nat, l: int, depth: nat)
    requires Midway(st, k, p, s, i, l) && s != [] && s[0].Some? && s[0].value.Wrapper?
    ensures Pass(st, st.callbacks[k], args, i, l, depth) == Finished(st, k, args, p, s)
    decreases |s|, 0
  {
    var r := st.callbacks[k];
    var st2 := Log(st, Callee(s[0].value), args).(lists := st.lists[r := p + [None] + s[1..]]);
    FinishedWrapper(st, k, args, p, s, i, l);
    StepWrapper(st, k, args, p, s, i, l, depth);
    PassPlain(st2, k, args, p + [None], s[1..], i + 1, l, depth);
  }

  lemma FinishedWrapper(st: State, k: Key, args: seq<Value>, p: ListenerList, s: ListenerList, i: nat, l: int)
    requires Midway(st, k, p, s, i, l) && s != [] && s[0].Some? && s[0].value.Wrapper?
    ensures Plain(s[0].value, k) && Some(s[0].value) !in s[1..]
    ensures var st2 := Log(st, Callee(s[0].value), args).(lists := st.lists[st.callbacks[k] := p + [None] + s[1..]]);
      Midway(st2, k, p + [None], s[1..], i + 1, l)
      && Finished(st2, k, args, p + [None], s[1..]) == Finished(st, k, args, p, s)
  {
    var r := st.callbacks[k];
    var s' := s[1..];
    var x := s[0].value;
    TailPlain(s, k);
    AfterPassCons(s);
    assert Calls(s, args) == [Call(Callee(x), args)] + Calls(s', args);
    var p' := p + [None];
    assert NoWrapper(p') by {
      forall j | 0 <= j < |p'| && p'[j].Some? ensures !p'[j].value.Wrapper? {
        assert p'[j] == p[j];
      }
    }
    assert p' + AfterPass(s') == p + AfterPass(s);
    var st2 := Log(st, Callee(x), args).(lists := st.lists[r := p' + s']);
    assert st2.lists[r := p' + AfterPass(s')] == st.lists[r := p + AfterPass(s)];
  }

  /** Replacing the array of a bound key. */
  lemma SetList(st: State, k: Key, x: ListenerList)
    requires Valid(st) && k in st.callbacks
    ensures var st' := st.(lists := st.lists[st.callbacks[k] := x]);
      Valid(st') && ListOf(st', k) == x && forall k' :: k' != k ==> ListOf(st', k') == ListOf(st, k')
  {
  }

  /** One whole pass over the plain listeners of a bound key. */
  lemma PassWhole(st: State, k: Key, args: seq<Value>, depth: nat)
    requires Valid(st) && k in st.callbacks && !FalsyName(k)
    requires PlainList(ListOf(st, k), k) && WrappersOnce(ListOf(st, k))
    ensures Pass(st, st.callbacks[k], args, 0, |Deref(st.lists, st.callbacks[k])|, depth)
         == st.(lists := st.lists[st.callbacks[k] := AfterPass(ListOf(st, k))], log := st.log + Calls(ListOf(st, k), args))
  {
    assert st.lists[st.callbacks[k]] == [] + ListOf(st, k);
    assert NoWrapper([]);
    PassPlain(st, k, args, [], ListOf(st, k), 0, |Deref(st.lists, st.callbacks[k])|, depth);
    assert [] + AfterPass(ListOf(st, k)) == AfterPass(ListOf(st, k));
  }

  /**
   * `trigger(k, args...)` over plain listeners: the listeners of `k` are
   * called with `args` in list order, then the wildcard's with the event
   * name first; each of the two arrays is left as `AfterPass` of itself;
   * no other array, and nothing but the log, changes.
   */
  lemma DispatchPlain(st: State, k: Key, args: seq<Value>, depth: nat)
    requires Valid(st) && k != Wildcard && !FalsyName(k)
    requires PlainList(ListOf(st, k), k) && WrappersOnce(ListOf(st, k))
    requires PlainList(ListOf(st, Wildcard), Wildcard) && WrappersOnce(ListOf(st, Wildcard))
    ensures var r := Dispatch(st, k, args, depth);
      && r == st.(lists := r.lists, log := r.log)
      && Valid(r)
      && ListOf(r, k) == AfterPass(ListOf(st, k))
      && ListOf(r, Wildcard) == AfterPass(ListOf(st, Wildcard))
      && (forall k' :: k' != k && k' != Wildcard ==> ListOf(r, k') == ListOf(st, k'))
      && r.log == st.log + Calls(ListOf(st, k), args) + Calls(ListOf(st, Wildcard), [EventName(k)] + args)
  {
    PassPhase(st, k, args, depth);
    var st1 := PassOver(st, k, args, depth);
    assert ListOf(st1, Wildcard) == ListOf(st, Wildcard);
    PassPhase(st1, Wildcard, [EventName(k)] + args, depth);
    assert Dispatch(st, k, args, depth) == PassOver(st1, Wildcard, [EventName(k)] + args, depth);
  }

  /** The pass over the array of `k`, if `k` has one. */
  function PassOver(st: State, k: Key, args: seq<Value>, depth: nat): State {
    if k in st.callbacks then Pass(st, st.callbacks[k], args, 0, |Deref(st.lists, st.callbacks[k])|, depth) else st
  }

  /** One of the two phases of `trigger`: the pass over the array of `k`, when it holds plain listeners. */
  lemma PassPhase(st: State, k: Key, args: seq<Value>, depth: nat)
    requires Valid(st) && !FalsyName(k)
    requires PlainList(ListOf(st, k), k) && WrappersOnce(ListOf(st, k))
    ensures var r := PassOver(st, k, args, depth);
      && r == st.(lists := r.lists, log := st.log + Calls(ListOf(st, k), args))
      && Valid(r) && ListOf(r, k) == AfterPass(ListOf(st, k))
      && forall k' :: k' != k ==> ListOf(r, k') == ListOf(st, k')
  {
    if k in st.callbacks {
      PassWhole(st, k, args, depth);
      SetList(st, k, AfterPass(ListOf(st, k)));
    } else {
      assert Calls([], args) == [];
    }
  }

  /** A pass over an array of at most one slot, written without the loop. */
  function PassSmall(st: State, r: nat, args: seq<Value>, depth: nat): State {
    var s := Deref(st.lists, r);
    if s == [] then st
    else if s[0].None? then st.(lists := Store(st.lists, r, s[1..]))
    else Invoke(st, s[0].value, args, depth)
  }

  lemma PassSmallIs(st: State, r: nat, args: seq<Value>, depth: nat)
    requires |Deref(st.lists, r)| <= 1
    ensures Pass(st, r, args, 0, |Deref(st.lists, r)|, depth) == PassSmall(st, r, args, depth)
  {
    var s := Deref(st.lists, r);
    if s != [] && s[0].None? {
      assert Splice(s, 0) == s[1..];
    }
  }

  /** `trigger` when the arrays of the event and of the wildcard hold at most one slot each. */
  lemma DispatchSmall(st: State, k: Key, args: seq<Value>, depth: nat)
    requires |ListOf(st, k)| <= 1
    ensures var calls := st.callbacks;
      var st1 := if k in calls then PassSmall(st, calls[k], args, depth) else st;
      && (Wildcard in calls && |Deref(st1.lists, calls[Wildcard])| <= 1 ==>
            Dispatch(st, k, args, depth) == PassSmall(st1, calls[Wildcard], [EventName(k)] + args, depth))
      && (Wildcard !in calls ==> Dispatch(st, k, args, depth) == st1)
  {
    var calls := st.callbacks;
    if k in calls {
      PassSmallIs(st, calls[k], args, depth);
    }
    var st1 := if k in calls then PassSmall(st, calls[k], args, depth) else st;
    if Wildcard in calls && |Deref(st1.lists, calls[Wildcard])| <= 1 {
      PassSmallIs(st1, calls[Wildcard], [EventName(k)] + args, depth);
    }
  }

  /** The state after a sequence of triggers over one `once(e, cb)` binding. */
  ghost predicate OnceInv(st: State, e: string, cb: nat, t: seq<Firing>) {
    && Valid(st)
    && st.callbacks.Keys == {Ev(e)}
    && (if e in NamesFired(t) then Dead(ListOf(st, Ev(e))) else ListOf(st, Ev(e)) == [Some(Wrapper(0, Ev(e), User(cb)))])
    && st.log == if e in NamesFired(t) then [Call(cb, FirstArgs(t, e))] else []
  }

  lemma OnceStep(st: State, e: string, cb: nat, t: seq<Firing>, f: Firing)
    requires e != "" && OnceInv(st, e, cb, t)
    ensures OnceInv(Trigger(st, f.name, f.args), e, cb, t + [f])
  {
    NamesFiredSnoc(t, f);
    if e in NamesFired(t) || f.name == e {
      FirstArgsSnoc(t, f, e);
    }
    if f.name == e {
      OnceHit(st, e, cb, t, f.args);
    } else {
      assert Dispatch(st, Ev(f.name), f.args, 1) == st;
    }
  }

  lemma OnceHit(st: State, e: string, cb: nat, t: seq<Firing>, args: seq<Value>)
    requires e != "" && OnceInv(st, e, cb, t)
    ensures var r := Trigger(st, e, args);
      && Valid(r) && r.callbacks == st.callbacks && Dead(ListOf(r, Ev(e)))
      && r.log == st.log + (if e in NamesFired(t) then [] else [Call(cb, args)])
  {
    if e in NamesFired(t) {
      OnceDeadPass(st, e, args);
    } else {
      OnceLivePass(st, e, cb, args);
    }
  }

  /** A trigger of `e` over its live `once` wrapper: the wrapper calls back and nulls its own slot. */
  lemma OnceLivePass(st: State, e: string, cb: nat, args: seq<Value>)
    requires e != "" && Valid(st) && st.callbacks.Keys == {Ev(e)}
    requires ListOf(st, Ev(e)) == [Some(Wrapper(0, Ev(e), User(cb)))]
    ensures var r := Trigger(st, e, args);
      && Valid(r) && r.callbacks == st.callbacks && ListOf(r, Ev(e)) == [None]
      && r.log == st.log + [Call(cb, args)]
  {
    var k := Ev(e);
    var w := Wrapper(0, k, User(cb));
    DispatchSmall(st, k, args, 1);
    assert Wildcard !in st.callbacks;
    assert PassSmall(st, st.callbacks[k], args, 1) == Invoke(st, w, args, 1);
    assert Invoke(st, w, args, 1) == RemoveListener(Log(st, cb, args), Some(k), Some(w));
    assert NullAll([Some(w)], w) == [None];
  }

  /** A trigger of `e` once its `once` wrapper is gone: nothing is called and the array stays dead. */
  lemma OnceDeadPass(st: State, e: string, args: seq<Value>)
    requires e != "" && Valid(st) && st.callbacks.Keys == {Ev(e)} && Dead(ListOf(st, Ev(e)))
    ensures var r := Trigger(st, e, args);
      Valid(r) && r.callbacks == st.callbacks && Dead(ListOf(r, Ev(e))) && r.log == st.log
  {
    DispatchSmall(st, Ev(e), args, 1);
    assert Wildcard !in st.callbacks;
  }

  lemma {:induction false} OnceRun(st0: State, e: string, cb: nat, t: seq<Firing>)
    requires e != "" && OnceInv(st0, e, cb, [])
    ensures OnceInv(Run(st0, t), e, cb, t)
  {
    if t != [] {
      var n := |t| - 1;
      var t0, f := t[..n], t[n];
      OnceRun(st0, e, cb, t0);
      var prev := Run(st0, t0);
      OnceStep(prev, e, cb, t0, f);
      assert t0 + [f] == t;
      assert Run(st0, t) == Trigger(prev, f.name, f.args);
    }
  }

  /**
   * `once(e, cb)` followed by any sequence of triggers: `cb` is called
   * exactly once if `e` was fired, with the arguments of its first firing,
   * and never otherwise.
   */
  lemma OnceAtMostOnce(e: string, cb: nat, t: seq<Firing>)
    requires e != AllEvent
    ensures Run(Once(Empty(), Ev(e), User(cb)), t).log == if e in NamesFired(t) then [Call(cb, FirstArgs(t, e))] else []
  {
    if e == "" {
      OnceEmptyNameClears(cb, t);
    } else {
      var st0 := Once(Empty(), Ev(e), User(cb));
      assert ListOf(st0, Ev(e)) == [Some(Wrapper(0, Ev(e), User(cb)))];
      OnceRun(st0, e, cb, t);
    }
  }

  /**
   * The state after a sequence of triggers over `once('', cb)`: untouched
   * until '' fires; from then on the map is empty and `cb` has been called once.
   */
  ghost predicate OnceEmptyInv(st: State, cb: nat, t: seq<Firing>) {
    if "" in NamesFired(t) then st.callbacks == map[] && st.log == [Call(cb, FirstArgs(t, ""))]
    else st == Once(Empty(), Ev(""), User(cb))
  }

  /** The first trigger of '' over `once('', cb)`: the wrapper calls back, and its `unbind('', wrapper)` drops the whole map. */
  lemma OnceEmptyFire(cb: nat, args: seq<Value>)
    ensures var r := Trigger(Once(Empty(), Ev(""), User(cb)), "", args);
      r.callbacks == map[] && r.log == [Call(cb, args)]
  {
    var st := Once(Empty(), Ev(""), User(cb));
    var w := Wrapper(0, Ev(""), User(cb));
    assert ListOf(st, Ev("")) == [Some(w)];
    DispatchSmall(st, Ev(""), args, 1);
    assert Wildcard !in st.callbacks;
    assert PassSmall(st, st.callbacks[Ev("")], args, 1) == Invoke(st, w, args, 1);
  }

  lemma OnceEmptyStep(st: State, cb: nat, t: seq<Firing>, f: Firing)
    requires OnceEmptyInv(st, cb, t)
    ensures OnceEmptyInv(Trigger(st, f.name, f.args), cb, t + [f])
  {
    NamesFiredSnoc(t, f);
    if "" in NamesFired(t) {
      FirstArgsSnoc(t, f, "");
      assert Trigger(st, f.name, f.args) == st;
    } else if f.name == "" {
      FirstArgsSnoc(t, f, "");
      OnceEmptyFire(cb, f.args);
    } else {
      assert st.callbacks.Keys == {Ev("")};
      assert Trigger(st, f.name, f.args) == st;
    }
  }

  lemma {:induction false} OnceEmptyRun(cb: nat, t: seq<Firing>)
    ensures OnceEmptyInv(Run(Once(Empty(), Ev(""), User(cb)), t), cb, t)
  {
    if t != [] {
      var n := |t| - 1;
      var t0, f := t[..n], t[n];
      OnceEmptyRun(cb, t0);
      OnceEmptyStep(Run(Once(Empty(), Ev(""), User(cb)), t0), cb, t0, f);
      assert t0 + [f] == t;
    }
  }

  /**
   * `once('', cb)` followed by any sequence of triggers: `cb` is called once,
   * with the arguments of the first firing of '', and never otherwise; the
   * wrapper's `unbind('', wrapper)` takes the falsy-name branch, so after
   * that firing nothing is bound on any event.
   */
  lemma OnceEmptyNameClears(cb: nat, t: seq<Firing>)
    ensures var r := Run(Once(Empty(), Ev(""), User(cb)), t);
      && r.log == (if "" in NamesFired(t) then [Call(cb, FirstArgs(t, ""))] else [])
      && ("" in NamesFired(t) ==> r.callbacks == map[])
  {
    OnceEmptyRun(cb, t);
  }

  /** The state after a sequence of triggers over one `bind(e, cb)` binding. */
  ghost predicate BindInv(st: State, e: string, cb: nat, t: seq<Firing>) {
    && Valid(st)
    && st.callbacks.Keys == {Ev(e)}
    && ListOf(st, Ev(e)) == [Some(User(cb))]
    && st.log == CallsOf(cb, ArgsOf(t, e))
  }

  lemma BindStep(st: State, e: string, cb: nat, t: seq<Firing>, f: Firing)
    requires BindInv(st, e, cb, t)
    ensures BindInv(Trigger(st, f.name, f.args), e, cb, t + [f])
  {
    if f.name == e {
      BindStepHit(st, e, cb, t, f);
    } else {
      BindStepMiss(st, e, cb, t, f);
    }
  }

  /** A trigger of the bound event appends one call of `cb` with its arguments. */
  lemma BindStepHit(st: State, e: string, cb: nat, t: seq<Firing>, f: Firing)
    requires BindInv(st, e, cb, t) && f.name == e
    ensures BindInv(Trigger(st, f.name, f.args), e, cb, t + [f])
  {
    var r := Trigger(st, f.name, f.args);
    BindHit(st, e, cb, f.args);
    assert r.lists == st.lists && r.callbacks == st.callbacks;
    ArgsOfSnoc(t, f, e);
    CallsOfSnoc(cb, ArgsOf(t, e), f.args);
    assert r.log == CallsOf(cb, ArgsOf(t + [f], e));
  }

  /** A trigger of another event changes nothing. */
  lemma BindStepMiss(st: State, e: string, cb: nat, t: seq<Firing>, f: Firing)
    requires BindInv(st, e, cb, t) && f.name != e
    ensures BindInv(Trigger(st, f.name, f.args), e, cb, t + [f])
  {
    ArgsOfSnoc(t, f, e);
    assert Dispatch(st, Ev(f.name), f.args, 1) == st;
  }

  /** A trigger of `e` over the array `[cb]`: `cb` is called and stays bound. */
  lemma BindHit(st: State, e: string, cb: nat, args: seq<Value>)
    requires Valid(st) && st.callbacks.Keys == {Ev(e)} && ListOf(st, Ev(e)) == [Some(User(cb))]
    ensures Trigger(st, e, args) == Log(st, cb, args)
  {
    DispatchSmall(st, Ev(e), args, 1);
    assert Wildcard !in st.callbacks;
    assert PassSmall(st, st.callbacks[Ev(e)], args, 1) == Log(st, cb, args);
  }

  lemma {:induction false} BindRun(st0: State, e: string, cb: nat, t: seq<Firing>)
    requires BindInv(st0, e, cb, [])
    ensures BindInv(Run(st0, t), e, cb, t)
  {
    if t != [] {
      var n := |t| - 1;
      var t0, f := t[..n], t[n];
      assert t0 + [f] == t;
      BindRun(st0, e, cb, t0);
      BindStep(Run(st0, t0), e, cb, t0, f);
    }
  }

  /** `bind(e, cb)` followed by any sequence of triggers: `cb` is called once per firing of `e`, with its arguments, in order. */
  lemma BindEveryTime(e: string, cb: nat, t: seq<Firing>)
    requires e != AllEvent
    ensures var log := Run(AddListener(Empty(), Ev(e), User(cb)), t).log;
      |log| == |ArgsOf(t, e)| && forall i :: 0 <= i < |log| ==> log[i] == Call(cb, ArgsOf(t, e)[i])
  {
    var st0 := AddListener(Empty(), Ev(e), User(cb));
    assert ListOf(st0, Ev(e)) == [Some(User(cb))];
    BindRun(st0, e, cb, t);
  }

  /** `unbind(e)` after `bind(e, cb)`: later triggers call nothing. */
  lemma UnbindThenTrigger(e: string, cb: nat, t: seq<Firing>)
    requires e != AllEvent
    ensures Run(RemoveListener(AddListener(Empty(), Ev(e), User(cb)), Some(Ev(e)), None), t).log == []
  {
    var st0 := RemoveListener(AddListener(Empty(), Ev(e), User(cb)), Some(Ev(e)), None);
    assert ListOf(st0, Ev(e)) == [];
    UnboundRun(st0, t);
  }

  lemma {:induction false} UnboundRun(st0: State, t: seq<Firing>)
    requires Valid(st0) && st0.log == [] && Wildcard !in st0.callbacks
    requires forall k :: k in st0.callbacks ==> ListOf(st0, k) == []
    ensures var r := Run(st0, t); r.log == [] && r.callbacks == st0.callbacks && r.lists == st0.lists
  {
    if t != [] {
      var n := |t| - 1;
      UnboundRun(st0, t[..n]);
      var st := Run(st0, t[..n]);
      var k := Ev(t[n].name);
      if k in st.callbacks {
        assert Deref(st.lists, st.callbacks[k]) == [];
      }
    }
  }

  /** A proxy with nothing bound ignores every trigger. */
  lemma {:induction false} RunUnbound(st0: State, t: seq<Firing>)
    requires st0.callbacks == map[]
    ensures Run(st0, t) == st0
  {
    if t != [] {
      RunUnbound(st0, t[..|t| - 1]);
    }
  }

  /** A trigger followed by the run of `t` is the run of `t` with that firing in front. */
  lemma {:induction false} RunCons(st: State, f: Firing, t: seq<Firing>)
    ensures Run(Trigger(st, f.name, f.args), t) == Run(st, [f] + t)
  {
    if t != [] {
      var n := |t| - 1;
      RunCons(st, f, t[..n]);
      assert ([f] + t)[..|t|] == [f] + t[..n];
    }
  }

  /**
   * `immediate(e, cb, data)` followed by any sequence of triggers: `cb` is
   * called with `data` at once, and stays bound, so it is then called once
   * per firing of `e`, with its arguments, in order.
   */
  lemma ImmediateThenEveryTime(e: string, cb: nat, data: Value, t: seq<Firing>)
    requires e != AllEvent
    ensures var log := Run(Immediate(Empty(), e, User(cb), data), t).log;
      && |log| == 1 + |ArgsOf(t, e)|
      && log[0] == Call(cb, [data])
      && forall i :: 0 <= i < |ArgsOf(t, e)| ==> log[i + 1] == Call(cb, ArgsOf(t, e)[i])
  {
    var f := Firing(e, [data]);
    var xs := ArgsOf(t, e);
    ImmediateRun(e, cb, data, t);
    ArgsOfCons(f, t, e);
    BindEveryTime(e, cb, [f] + t);
    var log := Run(Immediate(Empty(), e, User(cb), data), t).log;
    assert ArgsOf([f] + t, e) == [[data]] + xs;
    forall i | 0 <= i < |xs| ensures log[i + 1] == Call(cb, xs[i]) {
      assert ([[data]] + xs)[i + 1] == xs[i];
    }
  }

  /** `immediate(e, cb, data)` and then `t` is `bind(e, cb)` and then a trigger of `e` with `data` in front of `t`. */
  lemma ImmediateRun(e: string, cb: nat, data: Value, t: seq<Firing>)
    ensures Run(Immediate(Empty(), e, User(cb), data), t)
         == Run(AddListener(Empty(), Ev(e), User(cb)), [Firing(e, [data])] + t)
  {
    RunCons(AddListener(Empty(), Ev(e), User(cb)), Firing(e, [data]), t);
  }
}

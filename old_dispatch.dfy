/**
 * What one `trigger` of eventproxy.js (the older version) does to lists of
 * plain listeners (user callbacks and `once` wrappers of user callbacks),
 * and what `bind`, `once` and the first-match `unbind` of that version
 * promise over a whole sequence of triggers.
 */
module OldDispatch {
  import opened Common
  import opened Slots
  import opened OldModel

  /** A listener bound on `k` whose call only calls a user callback: one of the program's own, or `once`'s wrapper of one. */
  predicate Plain(l: Listener, k: Key) {
    l.User? || (l.Wrapper? && BoundOn(l.ev, k) && l.inner.User?)
  }

  /** `ev` names the key `k` and is not falsy, so `unbind(ev, ...)` reaches the array of `k`. */
  predicate BoundOn(ev: Arg, k: Key) {
    ev != Name("") && ArgKey(ev) == k
  }

  predicate PlainList(s: ListenerList, k: Key) {
    forall i :: 0 <= i < |s| && s[i].Some? ==> Plain(s[i].value, k)
  }

  predicate NoWrapper(s: ListenerList) {
    forall i :: 0 <= i < |s| && s[i].Some? ==> !s[i].value.Wrapper?
  }

  /** The user callback a plain listener ends up calling. */
  function Callee(l: Listener): nat {
    match l
    case User(id) => id
    case Wrapper(_, _, inner) => Callee(inner)
    case _ => 0
  }

  /** The user calls made by calling every live slot of `s` with `args`, in slot order. */
  function Calls(s: ListenerList, args: seq<Value>): seq<Call> {
    if s == [] then []
    else (if s[0].Some? then [Call(Callee(s[0].value), args)] else []) + Calls(s[1..], args)
  }

  /** The list a pass leaves behind: null slots spliced out, `once` wrappers nulled, user callbacks kept. */
  function AfterPass(s: ListenerList): ListenerList {
    if s == [] then []
    else
      (match s[0]
       case None => []
       case Some(l) => if l.Wrapper? then [None] else [s[0]])
      + AfterPass(s[1..])
  }

  /** The list a pass leaves, element by element. */
  function AfterSlot(o: Option<Listener>): ListenerList {
    match o
    case None => []
    case Some(l) => if l.Wrapper? then [None] else [o]
  }

  lemma AfterPassCons(s: ListenerList)
    requires s != []
    ensures AfterPass(s) == AfterSlot(s[0]) + AfterPass(s[1..])
  {
  }

  /** The listeners that stay bound after being called: all but `once` wrappers. */
  function Persistent(ls: seq<Listener>): seq<Listener> {
    if ls == [] then [] else (if ls[0].Wrapper? then [] else [ls[0]]) + Persistent(ls[1..])
  }

  /** After a pass the live listeners are the persistent ones of before, in the same relative order. */
  lemma {:induction false} LiveAfterPass(s: ListenerList)
    ensures Live(AfterPass(s)) == Persistent(Live(s))
  {
    if s != [] {
      LiveAfterPass(s[1..]);
      var h := AfterSlot(s[0]);
      AfterPassCons(s);
      LiveAppend(h, AfterPass(s[1..]));
      if s[0].Some? {
        var v := s[0].value;
        assert Live(s) == [v] + Live(s[1..]);
        assert ([v] + Live(s[1..]))[1..] == Live(s[1..]);
        assert Persistent(Live(s)) == (if v.Wrapper? then [] else [v]) + Persistent(Live(s[1..]));
        assert Live(h) == (if v.Wrapper? then [] else [v]) by { assert h[1..] == []; }
      } else {
        assert Live(s) == Live(s[1..]);
      }
    }
  }

  /** The first match of a wrapper that no earlier slot holds is its own slot. */
  lemma NullFirstAt(p: ListenerList, w: Listener, s: ListenerList)
    requires NoWrapper(p) && w.Wrapper?
    ensures NullFirst(p + [Some(w)] + s, w) == p + [None] + s
  {
    var a := p + [Some(w)] + s;
    assert a[|p|] == Some(w);
    assert forall j :: 0 <= j < |p| ==> a[j] != Some(w) by {
      forall j | 0 <= j < |p| ensures a[j] != Some(w) { assert a[j] == p[j]; }
    }
    assert FirstIndex(a, w) == |p|;
    assert a[|p| := None] == p + [None] + s;
  }

  /** One step of the pass at a null slot: it is spliced out and the bound drops. */
  lemma StepNull(st: State, r: nat, args: seq<Value>, p: ListenerList, s: ListenerList, i: nat, l: int)
    requires r < |st.lists| && st.lists[r] == p + s && i == |p| && l == |p| + |s| && s != [] && s[0].None?
    ensures Pass(st, r, args, i, l) == Pass(st.(lists := st.lists[r := p + s[1..]]), r, args, i, l - 1)
  {
    assert (p + s)[|p|] == s[0];
    assert Splice(p + s, |p|) == p + s[1..];
  }

  /** One step of the pass at a user callback: it is called. */
  lemma StepUser(st: State, r: nat, args: seq<Value>, p: ListenerList, s: ListenerList, i: nat, l: int)
    requires r < |st.lists| && st.lists[r] == p + s && i == |p| && l == |p| + |s| && s != [] && s[0].Some? && s[0].value.User?
    ensures Pass(st, r, args, i, l) == Pass(Log(st, s[0].value.id, args), r, args, i + 1, l)
  {
    assert (p + s)[|p|] == s[0];
  }

  /** One step of the pass at a `once` wrapper bound on `k`: its callback is called and its own slot nulled. */
  lemma StepWrapper(st: State, k: Key, args: seq<Value>, p: ListenerList, s: ListenerList, i: nat, l: int)
    requires k in st.callbacks && st.callbacks[k] < |st.lists|
    requires st.lists[st.callbacks[k]] == p + s && i == |p| && l == |p| + |s| && s != [] && s[0].Some?
    requires NoWrapper(p) && Plain(s[0].value, k) && s[0].value.Wrapper?
    ensures var r := st.callbacks[k];
      Pass(st, r, args, i, l)
      == Pass(Log(st, Callee(s[0].value), args).(lists := st.lists[r := p + [None] + s[1..]]), r, args, i + 1, l)
  {
    var r := st.callbacks[k];
    var x := s[0].value;
    assert (p + s)[|p|] == s[0];
    var st1 := Log(st, Callee(x), args);
    assert Callee(x) == x.inner.id;
    assert Invoke(st, x.inner, args) == st1;
    assert p + s == p + [Some(x)] + s[1..];
    NullFirstAt(p, x, s[1..]);
    assert Invoke(st, x, args) == st1.(lists := st.lists[r := p + [None] + s[1..]]);
  }

  /** The situation of a pass over `callbacks[k]` at index `|p|`: `p` already passed (no wrapper left in it), `s` to come. */
  ghost predicate Midway(st: State, k: Key, p: ListenerList, s: ListenerList, i: nat, l: int) {
    && k in st.callbacks && st.callbacks[k] < |st.lists|
    && st.lists[st.callbacks[k]] == p + s && i == |p| && l == |p| + |s|
    && NoWrapper(p) && PlainList(s, k)
  }

  /** The state at the end of that pass. */
  function Finished(st: State, k: Key, args: seq<Value>, p: ListenerList, s: ListenerList): State
    requires k in st.callbacks && st.callbacks[k] < |st.lists|
  {
    st.(lists := st.lists[st.callbacks[k] := p + AfterPass(s)], log := st.log + Calls(s, args))
  }

  lemma TailPlain(s: ListenerList, k: Key)
    requires s != [] && PlainList(s, k)
    ensures PlainList(s[1..], k)
    ensures s[0].Some? ==> Plain(s[0].value, k)
  {
    forall j | 0 <= j < |s[1..]| ensures s[1..][j] == s[j + 1] { }
  }

  /** The pass from `|p|` to the end, as `AfterPass` and `Calls` describe it. */
  lemma {:induction false} PassPlain(st: State, k: Key, args: seq<Value>, p: ListenerList, s: ListenerList, i: nat, l: int)
    requires Midway(st, k, p, s, i, l)
    ensures Pass(st, st.callbacks[k], args, i, l) == Finished(st, k, args, p, s)
    decreases |s|, 1
  {
    var r := st.callbacks[k];
    if s == [] {
      assert p + s == p;
      assert st.lists[r := p] == st.lists;
    } else if s[0].None? {
      PassPlainNull(st, k, args, p, s, i, l);
    } else if s[0].value.User? {
      PassPlainUser(st, k, args, p, s, i, l);
    } else {
      PassPlainWrapper(st, k, args, p, s, i, l);
    }
  }

  lemma {:induction false} PassPlainNull(st: State, k: Key, args: seq<Value>, p: ListenerList, s: ListenerList, i: nat, l: int)
    requires Midway(st, k, p, s, i, l) && s != [] && s[0].None?
    ensures Pass(st, st.callbacks[k], args, i, l) == Finished(st, k, args, p, s)
    decreases |s|, 0
  {
    var r := st.callbacks[k];
    var s' := s[1..];
    var st' := st.(lists := st.lists[r := p + s']);
    TailPlain(s, k);
    NullHeadPass(s, args);
    StepNull(st, r, args, p, s, i, l);
    assert Midway(st', k, p, s', i, l - 1);
    PassPlain(st', k, args, p, s', i, l - 1);
    UpdateTwice(st.lists, r, p + s', p + AfterPass(s'));
  }

  /** A null head slot calls nothing and is dropped by the pass. */
  lemma NullHeadPass(s: ListenerList, args: seq<Value>)
    requires s != [] && s[0].None?
    ensures AfterPass(s) == AfterPass(s[1..]) && Calls(s, args) == Calls(s[1..], args)
  {
    AfterPassCons(s);
  }

  lemma UpdateTwice<T>(xs: seq<T>, r: nat, a: T, b: T)
    requires r < |xs|
    ensures xs[r := a][r := b] == xs[r := b]
  {
  }

  lemma {:induction false} PassPlainUser(st: State, k: Key, args: seq<Value>, p: ListenerList, s: ListenerList, i: nat, l: int)
    requires Midway(st, k, p, s, i, l) && s != [] && s[0].Some? && s[0].value.User?
    ensures Pass(st, st.callbacks[k], args, i, l) == Finished(st, k, args, p, s)
    decreases |s|, 0
  {
    var st1 := Log(st, s[0].value.id, args);
    FinishedUser(st, k, args, p, s, i, l);
    StepUser(st, st.callbacks[k], args, p, s, i, l);
    PassPlain(st1, k, args, p + [s[0]], s[1..], i + 1, l);
  }

  lemma FinishedUser(st: State, k: Key, args: seq<Value>, p: ListenerList, s: ListenerList, i: nat, l: int)
    requires Midway(st, k, p, s, i, l) && s != [] && s[0].Some? && s[0].value.User?
    ensures var st1 := Log(st, s[0].value.id, args);
      Midway(st1, k, p + [s[0]], s[1..], i + 1, l)
      && Finished(st1, k, args, p + [s[0]], s[1..]) == Finished(st, k, args, p, s)
  {
    MidwayUser(st, k, p, s, i, l);
    FinishedUserSame(st, k, args, p, s);
  }

  /** Past a plain callback, the pass is still midway, one slot further. */
  lemma MidwayUser(st: State, k: Key, p: ListenerList, s: ListenerList, i: nat, l: int)
    requires Midway(st, k, p, s, i, l) && s != [] && s[0].Some? && s[0].value.User?
    ensures Midway(st, k, p + [s[0]], s[1..], i + 1, l)
  {
    var s' := s[1..];
    TailPlain(s, k);
    var p' := p + [s[0]];
    assert NoWrapper(p') by {
      forall j | 0 <= j < |p'| && p'[j].Some? ensures !p'[j].value.Wrapper? {
        if j < |p| { assert p'[j] == p[j]; }
      }
    }
    assert p' + s' == p + s by { assert s == [s[0]] + s'; }
  }

  /** Calling a plain callback first and passing over the rest ends where the whole pass ends. */
  lemma FinishedUserSame(st: State, k: Key, args: seq<Value>, p: ListenerList, s: ListenerList)
    requires k in st.callbacks && st.callbacks[k] < |st.lists|
    requires s != [] && s[0].Some? && s[0].value.User?
    ensures Finished(Log(st, s[0].value.id, args), k, args, p + [s[0]], s[1..]) == Finished(st, k, args, p, s)
  {
    var s' := s[1..];
    var x := s[0].value;
    AfterPassCons(s);
    assert Calls(s, args) == [Call(Callee(x), args)] + Calls(s', args);
    assert AfterSlot(s[0]) == [s[0]];
    assert AfterPass(s) == [s[0]] + AfterPass(s');
    assert (p + [s[0]]) + AfterPass(s') == p + AfterPass(s);
  }

  lemma {:induction false} PassPlainWrapper(st: State, k: Key, args: seq<Value>, p: ListenerList, s: ListenerList, i: nat, l: int)
    requires Midway(st, k, p, s, i, l) && s != [] && s[0].Some? && s[0].value.Wrapper?
    ensures Pass(st, st.callbacks[k], args, i, l) == Finished(st, k, args, p, s)
    decreases |s|, 0
  {
    var r := st.callbacks[k];
    var st2 := Log(st, Callee(s[0].value), args).(lists := st.lists[r := p + [None] + s[1..]]);
    FinishedWrapper(st, k, args, p, s, i, l);
    StepWrapper(st, k, args, p, s, i, l);
    PassPlain(st2, k, args, p + [None], s[1..], i + 1, l);
  }

  lemma FinishedWrapper(st: State, k: Key, args: seq<Value>, p: ListenerList, s: ListenerList, i: nat, l: int)
    requires Midway(st, k, p, s, i, l) && s != [] && s[0].Some? && s[0].value.Wrapper?
    ensures Plain(s[0].value, k)
    ensures var st2 := Log(st, Callee(s[0].value), args).(lists := st.lists[st.callbacks[k] := p + [None] + s[1..]]);
      Midway(st2, k, p + [None], s[1..], i + 1, l)
      && Finished(st2, k, args, p + [None], s[1..]) == Finished(st, k, args, p, s)
  {
    var r := st.callbacks[k];
    var s' := s[1..];
    var x := s[0].value;
    TailPlain(s, k);
    AfterPassCons(s);
    assert Calls(s, args) == [Call(Callee(x), args)] + Calls(s', args);
    var p' := p + [None];
    assert NoWrapper(p') by {
      forall j | 0 <= j < |p'| && p'[j].Some? ensures !p'[j].value.Wrapper? {
        assert p'[j] == p[j];
      }
    }
    assert p' + AfterPass(s') == p + AfterPass(s);
    var st2 := Log(st, Callee(x), args).(lists := st.lists[r := p' + s']);
    assert st2.lists[r := p' + AfterPass(s')] == st.lists[r := p + AfterPass(s)];
  }

  /** One whole pass over the plain listeners of a bound key. */
  lemma PassWhole(st: State, k: Key, args: seq<Value>)
    requires Valid(st) && k in st.callbacks
    requires PlainList(ListOf(st, k), k)
    ensures Pass(st, st.callbacks[k], args, 0, |Deref(st.lists, st.callbacks[k])|)
         == st.(lists := st.lists[st.callbacks[k] := AfterPass(ListOf(st, k))], log := st.log + Calls(ListOf(st, k), args))
  {
    assert st.lists[st.callbacks[k]] == [] + ListOf(st, k);
    assert NoWrapper([]);
    PassPlain(st, k, args, [], ListOf(st, k), 0, |Deref(st.lists, st.callbacks[k])|);
    assert [] + AfterPass(ListOf(st, k)) == AfterPass(ListOf(st, k));
  }

  /** Replacing the array of a bound key. */
  lemma SetList(st: State, k: Key, x: ListenerList)
    requires Valid(st) && k in st.callbacks
    ensures var st' := st.(lists := st.lists[st.callbacks[k] := x]);
      Valid(st') && ListOf(st', k) == x && forall k' :: k' != k ==> ListOf(st', k') == ListOf(st, k')
  {
  }

  /** The pass over one plain list, as a change of that list and of the log alone. */
  lemma PassList(st: State, k: Key, args: seq<Value>)
    requires Valid(st) && PlainList(ListOf(st, k), k)
    ensures var r := if k in st.callbacks then Pass(st, st.callbacks[k], args, 0, |Deref(st.lists, st.callbacks[k])|) else st;
      && r == st.(lists := r.lists, log := r.log)
      && Valid(r)
      && ListOf(r, k) == AfterPass(ListOf(st, k))
      && (forall k' :: k' != k ==> ListOf(r, k') == ListOf(st, k'))
      && r.log == st.log + Calls(ListOf(st, k), args)
  {
    if k in st.callbacks {
      PassWhole(st, k, args);
      SetList(st, k, AfterPass(ListOf(st, k)));
    } else {
      assert Calls(ListOf(st, k), args) == [];
      assert AfterPass(ListOf(st, k)) == [];
    }
  }

  /**
   * `trigger(name, args...)` over plain listeners: the listeners of the
   * name are called with `args` in list order, then those of 'all' with the
   * name first; each of the two arrays is left as `AfterPass` of itself;
   * no other array, and nothing but the log, changes.
   */
  lemma TriggerPlain(st: State, name: string, args: seq<Value>)
    requires Valid(st) && name != "all"
    requires PlainList(ListOf(st, Ev(name)), Ev(name)) && PlainList(ListOf(st, Wildcard), Wildcard)
    ensures var r := Trigger(st, name, args);
      && r == st.(lists := r.lists, log := r.log)
      && Valid(r)
      && ListOf(r, Ev(name)) == AfterPass(ListOf(st, Ev(name)))
      && ListOf(r, Wildcard) == AfterPass(ListOf(st, Wildcard))
      && (forall k' :: k' != Ev(name) && k' != Wildcard ==> ListOf(r, k') == ListOf(st, k'))
      && r.log == st.log + Calls(ListOf(st, Ev(name)), args) + Calls(ListOf(st, Wildcard), [Str(name)] + args)
  {
    var k := Ev(name);
    PassList(st, k, args);
    var st1 := if k in st.callbacks then Pass(st, st.callbacks[k], args, 0, |Deref(st.lists, st.callbacks[k])|) else st;
    assert st1.callbacks == st.callbacks;
    PassList(st1, Wildcard, [Str(name)] + args);
  }

  /**
   * `trigger('all', args...)`: the name is the wildcard itself, so the
   * array of 'all' is passed twice, first with `args`, then with the name
   * first; its listeners are called twice.
   */
  lemma TriggerWildcardName(st: State, args: seq<Value>)
    requires Valid(st) && PlainList(ListOf(st, Wildcard), Wildcard)
    ensures var r := Trigger(st, "all", args);
      && r == st.(lists := r.lists, log := r.log)
      && ListOf(r, Wildcard) == AfterPass(AfterPass(ListOf(st, Wildcard)))
      && (forall k' :: k' != Wildcard ==> ListOf(r, k') == ListOf(st, k'))
      && r.log == st.log + Calls(ListOf(st, Wildcard), args) + Calls(AfterPass(ListOf(st, Wildcard)), [Str("all")] + args)
  {
    PassList(st, Wildcard, args);
    var st1 := if Wildcard in st.callbacks then Pass(st, st.callbacks[Wildcard], args, 0, |Deref(st.lists, st.callbacks[Wildcard])|) else st;
    AfterPassPlain(ListOf(st, Wildcard), Wildcard);
    PassList(st1, Wildcard, [Str("all")] + args);
  }

  /** A pass keeps every surviving listener plain. */
  lemma {:induction false} AfterPassPlain(s: ListenerList, k: Key)
    requires PlainList(s, k)
    ensures PlainList(AfterPass(s), k)
  {
    if s != [] {
      TailPlain(s, k);
      AfterPassPlain(s[1..], k);
      var h := AfterSlot(s[0]);
      AfterPassCons(s);
      var a := AfterPass(s);
      forall i | 0 <= i < |a| && a[i].Some? ensures Plain(a[i].value, k) {
        if i >= |h| {
          assert a[i] == AfterPass(s[1..])[i - |h|];
        }
      }
    }
  }

  /** A callback bound on 'all' only: `trigger('all', args...)` calls it twice, `trigger(e, args...)` once with `e` first. */
  lemma WildcardNameCallsTwice(cb: nat, e: string, args: seq<Value>)
    requires e != "all"
    ensures Trigger(Bind(Empty(), Name("all"), User(cb)), "all", args).log == [Call(cb, args), Call(cb, [Str("all")] + args)]
    ensures Trigger(Bind(Empty(), Name("all"), User(cb)), e, args).log == [Call(cb, [Str(e)] + args)]
  {
    var st := Bind(Empty(), Name("all"), User(cb));
    assert ListOf(st, Wildcard) == [Some(User(cb))];
    assert AfterPass([Some(User(cb))]) == [Some(User(cb))];
    assert Calls([Some(User(cb))], args) == [Call(cb, args)];
    assert Calls([Some(User(cb))], [Str("all")] + args) == [Call(cb, [Str("all")] + args)];
    TriggerWildcardName(st, args);
    assert ListOf(st, Ev(e)) == [];
    assert Calls([Some(User(cb))], [Str(e)] + args) == [Call(cb, [Str(e)] + args)];
    TriggerPlain(st, e, args);
  }

  // ---------------------------------------------------------------------
  // unbind by first match
  // ---------------------------------------------------------------------

  /**
   * `unbind(ev, callback)` removes one binding of `callback` and only one:
   * with `n` bindings before, `n - 1` remain (none when there were none),
   * and nothing else bound changes.
   */
  lemma UnbindFirstOnly(st: State, ev: Arg, l: Listener)
    requires Valid(st) && ev != Name("")
    ensures var r := Unbind(st, Some(ev), Some(l));
      && Count(ListOf(r, ArgKey(ev)), l) == (if Count(ListOf(st, ArgKey(ev)), l) > 0 then Count(ListOf(st, ArgKey(ev)), l) - 1 else 0)
      && (forall k' :: k' != ArgKey(ev) ==> ListOf(r, k') == ListOf(st, k'))
  {
    NullFirstCount(ListOf(st, ArgKey(ev)), l);
  }

  /** The same callback bound twice and unbound once is still bound once, in the later slot. */
  lemma BindTwiceUnbindOnce(e: string, cb: nat)
    requires e != ""
    ensures var st := Bind(Bind(Empty(), Name(e), User(cb)), Name(e), User(cb));
      ListOf(Unbind(st, Some(Name(e)), Some(User(cb))), NameKey(e)) == [None, Some(User(cb))]
  {
    var st := Bind(Bind(Empty(), Name(e), User(cb)), Name(e), User(cb));
    assert ListOf(st, NameKey(e)) == [Some(User(cb)), Some(User(cb))];
    assert NullFirst([Some(User(cb)), Some(User(cb))], User(cb)) == [None, Some(User(cb))];
  }

  // ---------------------------------------------------------------------
  // bind and once over a sequence of triggers
  // ---------------------------------------------------------------------

  /** The state after a sequence of triggers over one `once(e, cb)` binding. */
  ghost predicate OnceInv(st: State, e: string, cb: nat, t: seq<Firing>) {
    && Valid(st)
    && st.callbacks.Keys == {Ev(e)}
    && (if e in NamesFired(t) then Dead(ListOf(st, Ev(e))) else ListOf(st, Ev(e)) == [Some(Wrapper(0, Name(e), User(cb)))])
    && st.log == if e in NamesFired(t) then [Call(cb, FirstArgs(t, e))] else []
  }

  /** A trigger of `e` over its live `once` array: the wrapper is called and nulled. */
  lemma OnceHitPass(st: State, e: string, cb: nat, args: seq<Value>)
    requires e != "" && e != "all" && Valid(st) && st.callbacks.Keys == {Ev(e)}
    requires ListOf(st, Ev(e)) == [Some(Wrapper(0, Name(e), User(cb)))]
    ensures var r := Trigger(st, e, args);
      && Valid(r) && r.callbacks.Keys == {Ev(e)}
      && ListOf(r, Ev(e)) == [None] && r.log == st.log + [Call(cb, args)]
  {
    var s := ListOf(st, Ev(e));
    assert PlainList(s, Ev(e));
    assert ListOf(st, Wildcard) == [] && Calls([], [Str(e)] + args) == [];
    TriggerPlain(st, e, args);
    assert Callee(Wrapper(0, Name(e), User(cb))) == cb;
    assert AfterPass(s) == [None] && Calls(s, args) == [Call(cb, args)];
  }

  /** A trigger of `e` over its dead `once` array: nothing called, the array stays dead. */
  lemma OnceAgainPass(st: State, e: string, args: seq<Value>)
    requires e != "" && e != "all" && Valid(st) && st.callbacks.Keys == {Ev(e)}
    requires Dead(ListOf(st, Ev(e)))
    ensures var r := Trigger(st, e, args);
      && Valid(r) && r.callbacks.Keys == {Ev(e)} && Dead(ListOf(r, Ev(e))) && r.log == st.log
  {
    var s := ListOf(st, Ev(e));
    assert PlainList(s, Ev(e));
    assert ListOf(st, Wildcard) == [] && Calls([], [Str(e)] + args) == [];
    TriggerPlain(st, e, args);
    assert AfterPass(s) == [] && Calls(s, args) == [];
  }

  lemma OnceStep(st: State, e: string, cb: nat, t: seq<Firing>, f: Firing)
    requires e != "" && e != "all" && OnceInv(st, e, cb, t)
    ensures OnceInv(Trigger(st, f.name, f.args), e, cb, t + [f])
  {
    NamesFiredSnoc(t, f);
    if e in NamesFired(t) || f.name == e {
      FirstArgsSnoc(t, f, e);
    }
    if f.name == e {
      if e in NamesFired(t) {
        OnceAgainPass(st, e, f.args);
      } else {
        OnceHitPass(st, e, cb, f.args);
      }
    } else {
      assert NameKey(f.name) !in st.callbacks;
      assert Trigger(st, f.name, f.args) == st;
    }
  }

  lemma {:induction false} OnceRun(st0: State, e: string, cb: nat, t: seq<Firing>)
    requires e != "" && e != "all" && OnceInv(st0, e, cb, [])
    ensures OnceInv(Run(st0, t), e, cb, t)
  {
    if t != [] {
      var n := |t| - 1;
      var t0, f := t[..n], t[n];
      OnceRun(st0, e, cb, t0);
      var prev := Run(st0, t0);
      OnceStep(prev, e, cb, t0, f);
      assert t0 + [f] == t;
      assert Run(st0, t) == Trigger(prev, f.name, f.args);
    }
  }

  /**
   * `once(e, cb)` followed by any sequence of triggers: `cb` is called
   * exactly once if `e` was fired, with the arguments of its first firing,
   * and never otherwise.
   */
  lemma OnceAtMostOnce(e: string, cb: nat, t: seq<Firing>)
    requires e != "all"
    ensures Run(Once(Empty(), Name(e), User(cb)), t).log == if e in NamesFired(t) then [Call(cb, FirstArgs(t, e))] else []
  {
    if e == "" {
      OnceEmptyNameClears(cb, t);
    } else {
      var st0 := Once(Empty(), Name(e), User(cb));
      assert ListOf(st0, Ev(e)) == [Some(Wrapper(0, Name(e), User(cb)))];
      OnceRun(st0, e, cb, t);
    }
  }

  /**
   * The state after a sequence of triggers over `once('', cb)`: untouched
   * until '' fires; from then on the map is empty and `cb` has been called once.
   */
  ghost predicate OnceEmptyInv(st: State, cb: nat, t: seq<Firing>) {
    if "" in NamesFired(t) then st.callbacks == map[] && st.log == [Call(cb, FirstArgs(t, ""))]
    else st == Once(Empty(), Name(""), User(cb))
  }

  /** The first trigger of '' over `once('', cb)`: the wrapper calls back, and its `unbind('', callee)` drops the whole map. */
  lemma OnceEmptyFire(cb: nat, args: seq<Value>)
    ensures var r := Trigger(Once(Empty(), Name(""), User(cb)), "", args);
      r.callbacks == map[] && r.log == [Call(cb, args)]
  {
    var st := Once(Empty(), Name(""), User(cb));
    var w := Wrapper(0, Name(""), User(cb));
    assert ListOf(st, Ev("")) == [Some(w)];
    assert st.callbacks == map[Ev("") := 0] && st.lists == [[Some(w)]];
    assert Invoke(st, User(cb), args) == Log(st, cb, args);
    var st1 := Invoke(st, w, args);
    assert st1 == Unbind(Log(st, cb, args), Some(Name("")), Some(w));
    assert st1 == st.(callbacks := map[], log := [Call(cb, args)]);
    assert Pass(st, 0, args, 0, 1) == Pass(st1, 0, args, 1, 1);
  }

  lemma OnceEmptyStep(st: State, cb: nat, t: seq<Firing>, f: Firing)
    requires OnceEmptyInv(st, cb, t)
    ensures OnceEmptyInv(Trigger(st, f.name, f.args), cb, t + [f])
  {
    NamesFiredSnoc(t, f);
    if "" in NamesFired(t) {
      FirstArgsSnoc(t, f, "");
      assert Trigger(st, f.name, f.args) == st;
    } else if f.name == "" {
      FirstArgsSnoc(t, f, "");
      OnceEmptyFire(cb, f.args);
    } else {
      assert st.callbacks.Keys == {Ev("")};
      assert NameKey(f.name) !in st.callbacks;
      assert Trigger(st, f.name, f.args) == st;
    }
  }

  lemma {:induction false} OnceEmptyRun(cb: nat, t: seq<Firing>)
    ensures OnceEmptyInv(Run(Once(Empty(), Name(""), User(cb)), t), cb, t)
  {
    if t != [] {
      var n := |t| - 1;
      var t0, f := t[..n], t[n];
      OnceEmptyRun(cb, t0);
      OnceEmptyStep(Run(Once(Empty(), Name(""), User(cb)), t0), cb, t0, f);
      assert t0 + [f] == t;
    }
  }

  /**
   * `once('', cb)` followed by any sequence of triggers: `cb` is called once,
   * with the arguments of the first firing of '', and never otherwise; the
   * wrapper's `unbind('', callee)` takes the falsy-name branch, so after
   * that firing nothing is bound on any event.
   */
  lemma OnceEmptyNameClears(cb: nat, t: seq<Firing>)
    ensures var r := Run(Once(Empty(), Name(""), User(cb)), t);
      && r.log == (if "" in NamesFired(t) then [Call(cb, FirstArgs(t, ""))] else [])
      && ("" in NamesFired(t) ==> r.callbacks == map[])
  {
    OnceEmptyRun(cb, t);
  }

  /** The state after a sequence of triggers over one `bind(e, cb)` binding. */
  ghost predicate BindInv(st: State, e: string, cb: nat, t: seq<Firing>) {
    && Valid(st)
    && st.callbacks.Keys == {Ev(e)}
    && ListOf(st, Ev(e)) == [Some(User(cb))]
    && st.log == CallsOf(cb, ArgsOf(t, e))
  }

  /** A trigger of `e` over the array `[cb]`: `cb` is called and stays bound. */
  lemma BindHit(st: State, e: string, cb: nat, args: seq<Value>)
    requires e != "all" && Valid(st) && st.callbacks.Keys == {Ev(e)} && ListOf(st, Ev(e)) == [Some(User(cb))]
    ensures var r := Trigger(st, e, args);
      Valid(r) && r.callbacks.Keys == {Ev(e)} && ListOf(r, Ev(e)) == [Some(User(cb))] && r.log == st.log + [Call(cb, args)]
  {
    assert ListOf(st, Wildcard) == [] && Calls([], [Str(e)] + args) == [];
    assert Calls([Some(User(cb))], args) == [Call(cb, args)];
    TriggerPlain(st, e, args);
  }

  lemma BindStep(st: State, e: string, cb: nat, t: seq<Firing>, f: Firing)
    requires e != "all" && BindInv(st, e, cb, t)
    ensures BindInv(Trigger(st, f.name, f.args), e, cb, t + [f])
  {
    ArgsOfSnoc(t, f, e);
    if f.name == e {
      BindHit(st, e, cb, f.args);
      CallsOfSnoc(cb, ArgsOf(t, e), f.args);
    } else {
      assert NameKey(f.name) !in st.callbacks;
      assert Trigger(st, f.name, f.args) == st;
    }
  }

  lemma {:induction false} BindRun(st0: State, e: string, cb: nat, t: seq<Firing>)
    requires e != "all" && BindInv(st0, e, cb, [])
    ensures BindInv(Run(st0, t), e, cb, t)
  {
    if t != [] {
      var n := |t| - 1;
      var t0, f := t[..n], t[n];
      BindRun(st0, e, cb, t0);
      var prev := Run(st0, t0);
      BindStep(prev, e, cb, t0, f);
      assert t0 + [f] == t;
      assert Run(st0, t) == Trigger(prev, f.name, f.args);
    }
  }

  /** `bind(e, cb)` followed by any sequence of triggers: `cb` is called once per firing of `e`, with its arguments, in order. */
  lemma BindEveryTime(e: string, cb: nat, t: seq<Firing>)
    requires e != "all"
    ensures var log := Run(Bind(Empty(), Name(e), User(cb)), t).log;
      |log| == |ArgsOf(t, e)| && forall i :: 0 <= i < |log| ==> log[i] == Call(cb, ArgsOf(t, e)[i])
  {
    var st0 := Bind(Empty(), Name(e), User(cb));
    assert ListOf(st0, Ev(e)) == [Some(User(cb))];
    BindRun(st0, e, cb, t);
  }
}

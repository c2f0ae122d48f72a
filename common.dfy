/**
 * Values shared by the three versions of the event proxy: the keys of the
 * listener map, the values that travel through `trigger`, the log of
 * user-callback invocations, and helpers over a sequence of firings.
 */
module Common {

  datatype Option<+T> = None | Some(value: T)

  /**
   * A key of the listener map. The reserved names are constructors of their
   * own, so no ordinary event name can collide with them. The older versions
   * map their wildcard name 'all' to `Wildcard` (`NameKey`); in
   * lib/eventproxy.js the reserved names are strings like any other, and the
   * collisions that allows are not modelled.
   */
  datatype Key =
    | Ev(name: string)              // an event name given by the caller
    | FnKey(fn: nat)                // a function passed where an event name was expected
    | Wildcard                      // '__all__' in lib/eventproxy.js, 'all' in the older versions
    | GroupSignal(event: string)    // `event + '_group'`, the signal from `group` to `after`
    | AnyOf(events: seq<string>)    // `events.join('_')`, the synthetic name of `any`

  /** The values that callbacks receive. */
  datatype Value =
    | Undefined
    | Null
    | Bool(b: bool)
    | Num(n: int)
    | Str(s: string)
    | Arr(items: seq<Value>)
    | AnyRecord(data: Value, eventName: string)   // `{data: data, eventName: key}` built by `any`
    | GroupItem(index: int, result: Value)        // `{index: index, result: ...}` built by `group`
    | EventName(key: Key)                         // the event name handed first to a wildcard listener

  /** JavaScript truthiness of a value. */
  predicate Truthy(v: Value) {
    match v
    case Undefined => false
    case Null => false
    case Bool(b) => b
    case Num(n) => n != 0
    case Str(s) => s != ""
    case _ => true
  }

  /** One element of a variadic argument list: a string or a user function (by identity). */
  datatype Arg = Name(s: string) | Fn(id: nat)

  /** The listener-map key an argument stands for when it is used as an event name. */
  function KeyOf(a: Arg): Key {
    match a
    case Name(s) => Ev(s)
    case Fn(id) => FnKey(id)
  }

  /** `events.map(KeyOf)`. */
  function KeysOf(args: seq<Arg>): (ks: seq<Key>)
    ensures |ks| == |args|
    ensures forall i :: 0 <= i < |args| ==> ks[i] == KeyOf(args[i])
  {
    seq(|args|, i requires 0 <= i < |args| => KeyOf(args[i]))
  }

  /**
   * The property of `_callbacks` an event name stands for in eventproxy.js
   * and event.emitter.js, whose wildcard is the ordinary name 'all':
   * binding or triggering 'all' reaches the wildcard array itself.
   */
  function NameKey(s: string): Key {
    if s == "all" then Wildcard else Ev(s)
  }

  /** The property of `_callbacks` an argument stands for in eventproxy.js and event.emitter.js. */
  function ArgKey(a: Arg): Key {
    match a
    case Name(s) => NameKey(s)
    case Fn(id) => FnKey(id)
  }

  /** String arguments for a list of event names. */
  function Names(events: seq<string>): (args: seq<Arg>)
    ensures |args| == |events|
    ensures forall i :: 0 <= i < |events| ==> args[i] == Name(events[i]) && KeyOf(args[i]) == Ev(events[i])
  {
    seq(|events|, i requires 0 <= i < |events| => Name(events[i]))
  }

  /** One invocation of a user callback, with the arguments it received. */
  datatype Call = Call(fn: nat, args: seq<Value>)

  /** `arguments[0]`: the first argument, or undefined when there is none. */
  function Head(args: seq<Value>): Value {
    if |args| > 0 then args[0] else Undefined
  }

  /** `arguments[1]`: the second argument, or undefined. */
  function Second(args: seq<Value>): Value {
    if |args| > 1 then args[1] else Undefined
  }

  /** `SLICE.call(arguments, 1)`: every argument after the first. */
  function Rest(args: seq<Value>): seq<Value> {
    if |args| > 0 then args[1..] else []
  }

  /** A JavaScript array element assignment `a[i] = v`: grows the array, leaving holes (read as undefined). */
  function Put(a: seq<Value>, i: nat, v: Value): (r: seq<Value>)
    ensures |r| == if i < |a| then |a| else i + 1
    ensures r[i] == v
    ensures forall j :: 0 <= j < |a| && j != i ==> r[j] == a[j]
    ensures forall j :: |a| <= j < |r| && j != i ==> r[j] == Undefined
  {
    if i < |a| then a[i := v]
    else a + seq(i - |a|, _ => Undefined) + [v]
  }

  /** One call of `trigger(name, args...)` made by the program using the proxy. */
  datatype Firing = Firing(name: string, args: seq<Value>)

  /** The names fired in a sequence of firings. */
  function NamesFired(t: seq<Firing>): (s: set<string>)
    ensures forall i :: 0 <= i < |t| ==> t[i].name in s
  {
    if t == [] then {} else NamesFired(t[..|t| - 1]) + {t[|t| - 1].name}
  }

  /** Every one of `events` has been fired in `t`. */
  predicate Covered(events: seq<string>, t: seq<Firing>) {
    forall e :: e in events ==> e in NamesFired(t)
  }

  /** The position of the first firing of `e` in `t`. */
  function FirstAt(t: seq<Firing>, e: string): (n: nat)
    requires e in NamesFired(t)
    ensures n < |t| && t[n].name == e
    ensures forall j :: 0 <= j < n ==> t[j].name != e
  {
    assert t != [];
    var m := |t| - 1;
    assert NamesFired(t) == NamesFired(t[..m]) + {t[m].name};
    if e in NamesFired(t[..m]) then
      var n := FirstAt(t[..m], e);
      assert t[..m][n] == t[n];
      assert forall j :: 0 <= j < n ==> t[j] == t[..m][j];
      n
    else
      assert forall j :: 0 <= j < m ==> t[j] == t[..m][j];
      m
  }

  /** The position of the last firing of `e` in `t`. */
  function LastAt(t: seq<Firing>, e: string): (n: nat)
    requires e in NamesFired(t)
    ensures n < |t| && t[n].name == e
    ensures forall j :: n < j < |t| ==> t[j].name != e
  {
    assert t != [];
    var m := |t| - 1;
    assert NamesFired(t) == NamesFired(t[..m]) + {t[m].name};
    if t[m].name == e then m
    else
      var n := LastAt(t[..m], e);
      assert t[..m][n] == t[n];
      assert forall j :: n < j < m ==> t[j] == t[..m][j];
      n
  }

  /** The arguments of the first firing of `e` in `t`. */
  function FirstArgs(t: seq<Firing>, e: string): seq<Value>
    requires e in NamesFired(t)
  {
    t[FirstAt(t, e)].args
  }

  /** The arguments of the last firing of `e` in `t`. */
  function LastArgs(t: seq<Firing>, e: string): seq<Value>
    requires e in NamesFired(t)
  {
    t[LastAt(t, e)].args
  }

  /** The arguments of every firing of `e` in `t`, in firing order. */
  function ArgsOf(t: seq<Firing>, e: string): seq<seq<Value>> {
    if t == [] then []
    else ArgsOf(t[..|t| - 1], e) + (if t[|t| - 1].name == e then [t[|t| - 1].args] else [])
  }

  /** Appending a firing adds its name to the names fired. */
  lemma NamesFiredSnoc(t: seq<Firing>, f: Firing)
    ensures NamesFired(t + [f]) == NamesFired(t) + {f.name}
  {
    assert (t + [f])[..|t|] == t;
  }

  /** The first firing of `e` is unaffected by later firings; the first firing of a new name is the last one. */
  lemma FirstArgsSnoc(t: seq<Firing>, f: Firing, e: string)
    requires e in NamesFired(t) || f.name == e
    ensures e in NamesFired(t + [f])
    ensures FirstArgs(t + [f], e) == if e in NamesFired(t) then FirstArgs(t, e) else f.args
  {
    assert (t + [f])[..|t|] == t;
  }

  /** The last firing of `e` is the new one if it is of `e`. */
  lemma LastArgsSnoc(t: seq<Firing>, f: Firing, e: string)
    requires e in NamesFired(t) || f.name == e
    ensures e in NamesFired(t + [f])
    ensures LastArgs(t + [f], e) == if f.name == e then f.args else LastArgs(t, e)
  {
    assert (t + [f])[..|t|] == t;
  }

  /** The arguments of the firings of `e`, extended by one firing. */
  lemma ArgsOfSnoc(t: seq<Firing>, f: Firing, e: string)
    ensures ArgsOf(t + [f], e) == ArgsOf(t, e) + (if f.name == e then [f.args] else [])
  {
    assert (t + [f])[..|t|] == t;
  }

  /** The arguments of the firings of `e`, with one firing more at the front. */
  lemma {:induction false} ArgsOfCons(f: Firing, t: seq<Firing>, e: string)
    ensures ArgsOf([f] + t, e) == (if f.name == e then [f.args] else []) + ArgsOf(t, e)
  {
    if t != [] {
      var n := |t| - 1;
      ArgsOfCons(f, t[..n], e);
      assert ([f] + t)[..|t|] == [f] + t[..n];
    }
  }

  /** The calls of `cb`, one per argument list, in order. */
  function CallsOf(cb: nat, xs: seq<seq<Value>>): (r: seq<Call>)
    ensures |r| == |xs| && forall i :: 0 <= i < |xs| ==> r[i] == Call(cb, xs[i])
  {
    if xs == [] then [] else CallsOf(cb, xs[..|xs| - 1]) + [Call(cb, xs[|xs| - 1])]
  }

  /** One argument list more is one call more, at the end. */
  lemma CallsOfSnoc(cb: nat, xs: seq<seq<Value>>, x: seq<Value>)
    ensures CallsOf(cb, xs + [x]) == CallsOf(cb, xs) + [Call(cb, x)]
  {
    assert (xs + [x])[..|xs|] == xs;
  }

  /** `e` occurs in `events` at most once. */
  predicate Distinct<T(==)>(events: seq<T>) {
    forall i, j :: 0 <= i < j < |events| ==> events[i] != events[j]
  }

  /** How many of `events` are among `names`. */
  function CountIn(events: seq<string>, names: set<string>): nat {
    if events == [] then 0 else (if events[0] in names then 1 else 0) + CountIn(events[1..], names)
  }

  /** The count reaches the number of events exactly when every event is among the names. */
  lemma {:induction false} CountInFull(events: seq<string>, names: set<string>)
    ensures CountIn(events, names) <= |events|
    ensures CountIn(events, names) == |events| <==> forall e :: e in events ==> e in names
  {
    if events != [] {
      CountInFull(events[1..], names);
      assert forall e :: e in events <==> e == events[0] || e in events[1..];
    }
  }

  /** The members of a suffix: its first element and those of the suffix after it. */
  lemma InSuffix<T>(s: seq<T>, i: nat)
    requires i < |s|
    ensures forall x :: x in s[i..] <==> x == s[i] || x in s[i + 1..]
  {
    assert s[i..] == [s[i]] + s[i + 1..];
  }

  lemma DistinctTail<T>(s: seq<T>)
    requires s != [] && Distinct(s)
    ensures Distinct(s[1..]) && s[0] !in s[1..]
  {
    forall i, j | 0 <= i < j < |s[1..]| ensures s[1..][i] != s[1..][j] {
      assert s[1..][i] == s[i + 1] && s[1..][j] == s[j + 1];
    }
  }

  /** A name that is new and listed adds one to the count; any other name adds nothing. */
  lemma {:induction false} CountInAdd(events: seq<string>, names: set<string>, x: string)
    requires Distinct(events)
    ensures CountIn(events, names + {x}) == CountIn(events, names) + (if x in events && x !in names then 1 else 0)
  {
    if events != [] {
      DistinctTail(events);
      CountInAdd(events[1..], names, x);
      assert x in events <==> x == events[0] || x in events[1..];
    }
  }

  lemma CountInNone(events: seq<string>)
    ensures CountIn(events, {}) == 0
  {
    if events != [] {
      CountInNone(events[1..]);
    }
  }
}

/**
 * A listener list as all three versions keep it: an array of slots in which a
 * removed listener is first set to null and only later spliced out by
 * `trigger`. Generic in the listener type, since every version interprets its
 * own listeners.
 */
module Slots {
  import opened Common

  /** The listeners still bound, in list order (null slots skipped). */
  function Live<L>(s: seq<Option<L>>): seq<L> {
    if s == [] then [] else (if s[0].Some? then [s[0].value] else []) + Live(s[1..])
  }

  lemma {:induction false} LiveAppend<L>(s: seq<Option<L>>, t: seq<Option<L>>)
    ensures Live(s + t) == Live(s) + Live(t)
  {
    if s == [] {
      assert s + t == t;
    } else {
      var u := s + t;
      assert u[0] == s[0] && u[1..] == s[1..] + t;
      LiveAppend(s[1..], t);
      calc {
        Live(u);
        (if u[0].Some? then [u[0].value] else []) + Live(u[1..]);
        (if s[0].Some? then [s[0].value] else []) + (Live(s[1..]) + Live(t));
        ((if s[0].Some? then [s[0].value] else []) + Live(s[1..])) + Live(t);
        Live(s) + Live(t);
      }
    }
  }

  /** A list with no null slot has exactly its own elements live. */
  lemma {:induction false} LiveOfSome<L>(xs: seq<L>)
    ensures Live(seq(|xs|, i requires 0 <= i < |xs| => Some(xs[i]))) == xs
  {
    var s := seq(|xs|, i requires 0 <= i < |xs| => Some(xs[i]));
    if xs != [] {
      assert s[1..] == seq(|xs[1..]|, i requires 0 <= i < |xs[1..]| => Some(xs[1..][i]));
      LiveOfSome(xs[1..]);
    }
  }

  /** `list.splice(i, 1)`: removes slot `i`; an index past the end removes nothing. */
  function Splice<L>(s: seq<Option<L>>, i: nat): (r: seq<Option<L>>)
    ensures i < |s| ==> |r| == |s| - 1 && r == s[..i] + s[i + 1..]
    ensures i >= |s| ==> r == s
  {
    if i < |s| then s[..i] + s[i + 1..] else s
  }

  /** Splicing out a null slot keeps every live listener; splicing out a live one drops exactly that one. */
  lemma SpliceLive<L>(s: seq<Option<L>>, i: nat)
    requires i < |s|
    ensures Live(Splice(s, i)) == Live(s[..i]) + (if s[i].Some? then Live(s[i + 1..]) else Live(s[i..]))
  {
    var a, b := s[..i], s[i + 1..];
    assert Splice(s, i) == a + b;
    LiveAppend(a, b);
    var c := s[i..];
    assert c != [] && c[0] == s[i] && c[1..] == b;
    assert Live(c) == (if s[i].Some? then [s[i].value] else []) + Live(b);
  }

  /**
   * lib/eventproxy.js `removeListener(ev, callback)`: every slot holding
   * `x` becomes null; the length and every other slot stay as they were.
   */
  function NullAll<L(==)>(s: seq<Option<L>>, x: L): (r: seq<Option<L>>)
    ensures |r| == |s|
    ensures Some(x) !in r
    ensures forall i :: 0 <= i < |s| && s[i] != Some(x) ==> r[i] == s[i]
    ensures forall i :: 0 <= i < |s| && s[i] == Some(x) ==> r[i] == None
  {
    seq(|s|, i requires 0 <= i < |s| => if s[i] == Some(x) then None else s[i])
  }

  /** The index of the first slot holding `x`, or `|s|` when there is none. */
  function FirstIndex<L(==)>(s: seq<Option<L>>, x: L): (n: nat)
    ensures n <= |s|
    ensures forall i :: 0 <= i < n ==> s[i] != Some(x)
    ensures n < |s| ==> s[n] == Some(x)
    ensures n == |s| <==> Some(x) !in s
  {
    if s == [] then 0
    else if s[0] == Some(x) then 0
    else 1 + FirstIndex(s[1..], x)
  }

  /**
   * eventproxy.js and event.emitter.js `unbind(ev, callback)`: the search
   * loop nulls the first slot holding `x` and stops (`break`).
   */
  function NullFirst<L(==)>(s: seq<Option<L>>, x: L): (r: seq<Option<L>>)
    ensures |r| == |s|
    ensures Some(x) !in s ==> r == s
    ensures Some(x) in s ==> exists n :: 0 <= n < |s| && s[n] == Some(x) && Some(x) !in s[..n] && r == s[n := None]
  {
    var n := FirstIndex(s, x);
    if n < |s| then s[n := None] else s
  }

  /** The number of slots holding `x`. */
  function Count<L(==)>(s: seq<Option<L>>, x: L): nat {
    if s == [] then 0 else (if s[0] == Some(x) then 1 else 0) + Count(s[1..], x)
  }

  /** Unbinding by first match removes exactly one of several equal bindings: the duplicates stay bound. */
  lemma NullFirstCount<L>(s: seq<Option<L>>, x: L)
    ensures Count(NullFirst(s, x), x) == if Count(s, x) > 0 then Count(s, x) - 1 else 0
  {
    CountZeroIff(s, x);
    var n := FirstIndex(s, x);
    if n < |s| {
      CountUpdate(s, n, x);
    }
  }

  /** Nulling one slot that holds `x` lowers the count of `x` by one. */
  lemma {:induction false} CountUpdate<L>(s: seq<Option<L>>, n: nat, x: L)
    requires n < |s| && s[n] == Some(x)
    ensures Count(s[n := None], x) == Count(s, x) - 1
  {
    if n == 0 {
      assert s[0 := None][1..] == s[1..];
    } else {
      assert s[n := None][1..] == s[1..][n - 1 := None];
      CountUpdate(s[1..], n - 1, x);
    }
  }

  lemma {:induction false} CountZeroIff<L>(s: seq<Option<L>>, x: L)
    ensures Count(s, x) == 0 <==> Some(x) !in s
  {
    if s != [] {
      assert Some(x) in s <==> s[0] == Some(x) || Some(x) in s[1..];
      CountZeroIff(s[1..], x);
    }
  }

  /** Unbinding every match leaves no binding of `x`, while first-match unbinding leaves `Count - 1`. */
  lemma NullAllCount<L>(s: seq<Option<L>>, x: L)
    ensures Count(NullAll(s, x), x) == 0
  {
    CountZeroIff(NullAll(s, x), x);
  }

  /** A list that holds nothing live: what a fired `once` leaves, before and after the next pass splices it. */
  predicate Dead<L(==)>(s: seq<Option<L>>) {
    s == [] || s == [None]
  }

}

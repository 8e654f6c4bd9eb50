/**
 * The selection primitives shared by every "choose X" of the mod:
 * LINQ's `Where` (Filter), `Util.RandomPick` (Pick) and the chains of
 * `x ??= level.RandomPick()` that try progressively looser filters (Fallback).
 *
 * The host's random element choice is not visible; it is modelled as an
 * oracle index `k`: `Pick(s, k)` is the element at `k % |s|`, so every
 * element can be the one chosen (PickReachesEvery) and an empty sequence
 * gives none. No distribution is stated.
 */
module Choice {
  import opened Wrappers

  /** The elements of `s` that satisfy `p`, in their original order. */
  function Filter<T>(s: seq<T>, p: T -> bool): (r: seq<T>)
    ensures |r| <= |s|
  {
    if s == [] then []
    else if p(s[0]) then [s[0]] + Filter(s[1..], p)
    else Filter(s[1..], p)
  }

  /** The filter keeps exactly the elements that satisfy `p`. */
  lemma {:induction false} FilterMembers<T(!new)>(s: seq<T>, p: T -> bool)
    ensures forall x {:trigger x in Filter(s, p)} :: x in Filter(s, p) <==> x in s && p(x)
  {
    if s != [] {
      FilterMembers(s[1..], p);
      assert forall x :: x in s <==> x == s[0] || x in s[1..];
    }
  }

  /** `RandomPick`: an element of `s` chosen by the oracle `k`, none when `s` is empty. */
  function Pick<T>(s: seq<T>, k: nat): (r: Option<T>)
    ensures r.None? <==> s == []
    ensures r.Some? ==> r.value in s
  {
    if s == [] then None else Some(s[k % |s|])
  }

  /** No element is excluded from the choice: each one is picked by some oracle. */
  lemma PickReachesEvery<T>(s: seq<T>, x: T)
    requires x in s
    ensures exists k: nat :: Pick(s, k) == Some(x)
  {
    var i :| 0 <= i < |s| && s[i] == x;
    assert i / |s| == 0 && i % |s| == i;
    assert Pick(s, i) == Some(x);
  }

  /** The index of the first non-empty level, or |levels| when all are empty. */
  function FirstNonEmpty<T>(levels: seq<seq<T>>): (i: nat)
    ensures i <= |levels|
    ensures forall j :: 0 <= j < i ==> levels[j] == []
    ensures i < |levels| ==> levels[i] != []
  {
    if levels == [] then 0
    else if levels[0] != [] then 0
    else 1 + FirstNonEmpty(levels[1..])
  }

  /**
   * `var x = levels[0].RandomPick(); x ??= levels[1].RandomPick(); ...`:
   * a pick from the first non-empty level, none when every level is empty.
   */
  function Fallback<T>(levels: seq<seq<T>>, k: nat): (r: Option<T>)
    ensures r.None? <==> forall j :: 0 <= j < |levels| ==> levels[j] == []
    ensures r.Some? ==> FirstNonEmpty(levels) < |levels| && r.value in levels[FirstNonEmpty(levels)]
  {
    if levels == [] then None
    else match Pick(levels[0], k)
      case Some(x) => Some(x)
      case None => Fallback(levels[1..], k)
  }

  /** A stricter level wins whenever it is non-empty: the result then lies in it or in an earlier level. */
  lemma FallbackPrefers<T>(levels: seq<seq<T>>, k: nat, i: nat)
    requires i < |levels| && levels[i] != []
    ensures Fallback(levels, k).Some?
    ensures exists j :: 0 <= j <= i && Fallback(levels, k).value in levels[j]
  {
    var f := FirstNonEmpty(levels);
    assert f <= i;
  }

  /** Ties are broken only by the oracle: every element of the first non-empty level can be the result. */
  lemma {:induction false} FallbackReachesEvery<T>(levels: seq<seq<T>>, x: T)
    requires FirstNonEmpty(levels) < |levels|
    requires x in levels[FirstNonEmpty(levels)]
    ensures exists k: nat :: Fallback(levels, k) == Some(x)
  {
    if levels[0] != [] {
      PickReachesEvery(levels[0], x);
      var k: nat :| Pick(levels[0], k) == Some(x);
      assert Fallback(levels, k) == Some(x);
    } else {
      FallbackReachesEvery(levels[1..], x);
      var k: nat :| Fallback(levels[1..], k) == Some(x);
      assert Fallback(levels, k) == Some(x);
    }
  }
}

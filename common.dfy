/** Small vocabulary shared by every module of the weather client model:
    JavaScript's absent values and thrown errors, its truthiness on strings,
    `Math.round`, `toLowerCase`, `includes` and the argmax reduce. */
module Common {

  /** `null` / `undefined` (None) or a present value (Some). */
  datatype Option<+T> = None | Some(value: T) {
    function GetOr(default: T): T {
      match this
      case Some(v) => v
      case None => default
    }
  }

  /** An evaluation that either yields a value or throws, as a JavaScript
      TypeError does when a property of `undefined` is read or when
      `reduce` without a seed meets an empty array. */
  datatype Outcome<+T> = Ok(value: T) | Throws

  /** `s || fallback` on a possibly absent string: both absence and the
      empty string are falsy. */
  function OrElse(s: Option<string>, fallback: string): (r: string)
    ensures r == fallback <==> (s == None || s.value == "" || s.value == fallback)
    ensures r != fallback ==> s == Some(r)
  {
    if s.Some? && s.value != "" then s.value else fallback
  }

  /** JavaScript `Math.round` on a real: the nearest integer, halves upward. */
  function Round(x: real): (r: int)
    ensures r as real - 1.0 / 2.0 <= x < r as real + 1.0 / 2.0
  {
    (x + 1.0 / 2.0).Floor
  }

  function LowerChar(c: char): char {
    if 'A' <= c <= 'Z' then (c as int + 32) as char else c
  }

  /** `toLowerCase`, on the ASCII letters. */
  function Lower(s: string): (r: string)
    ensures |r| == |s|
    ensures forall i :: 0 <= i < |s| ==> r[i] == LowerChar(s[i])
  {
    if s == [] then [] else [LowerChar(s[0])] + Lower(s[1..])
  }

  /** Lower-casing twice is lower-casing once, so comparing `Lower` images
      is an equivalence that ignores case. */
  lemma LowerIdempotent(s: string)
    ensures Lower(Lower(s)) == Lower(s)
  {
  }

  /** `s.includes(sub)`. */
  function Contains(s: string, sub: string): (r: bool)
    ensures sub <= s ==> r
    ensures r ==> |sub| <= |s|
    decreases |s|
  {
    sub <= s || (s != [] && Contains(s[1..], sub))
  }

  /** `sub` occurs in `s` starting at position `i`. */
  predicate OccursAt(s: string, sub: string, i: int) {
    0 <= i && i + |sub| <= |s| && s[i..i + |sub|] == sub
  }

  /** `includes` holds exactly when `sub` occurs at some position of `s`. */
  lemma {:induction false} ContainsAt(s: string, sub: string)
    ensures Contains(s, sub) <==> exists i :: OccursAt(s, sub, i)
    decreases |s|
  {
    if sub <= s {
      assert OccursAt(s, sub, 0);
    } else if s != [] {
      ContainsAt(s[1..], sub);
      if Contains(s[1..], sub) {
        var i :| OccursAt(s[1..], sub, i);
        assert OccursAt(s, sub, i + 1);
      }
      if exists i :: OccursAt(s, sub, i) {
        var i :| OccursAt(s, sub, i);
        assert i != 0;
        assert OccursAt(s[1..], sub, i - 1);
      }
    } else {
      assert forall i :: OccursAt(s, sub, i) ==> sub <= s;
    }
  }

  /** The index `reduce((a, b) => score(a) > score(b) ? a : b)` settles on:
      the accumulator is kept only when it is strictly greater, so among
      several maximal entries the LAST one wins. */
  function LastMaxIndex<T>(s: seq<T>, score: T -> real): (i: nat)
    requires |s| > 0
    ensures i < |s|
    ensures forall j :: 0 <= j < |s| ==> score(s[j]) <= score(s[i])
    ensures forall j :: i < j < |s| ==> score(s[j]) < score(s[i])
    decreases |s|
  {
    if |s| == 1 then 0
    else
      var a := LastMaxIndex(s[..|s| - 1], score);
      if score(s[a]) > score(s[|s| - 1]) then a else |s| - 1
  }

  // ---------------------------------------------------------------------------
  // Sequences

  /** The position of the first occurrence of `x` (what `find` reports). */
  function FirstIndex<T(==)>(s: seq<T>, x: T): (k: nat)
    requires x in s
    ensures k < |s| && s[k] == x
    ensures forall j :: 0 <= j < k ==> s[j] != x
  {
    if s[0] == x then 0 else 1 + FirstIndex(s[1..], x)
  }

  /** Appending never moves an existing first occurrence. */
  lemma FirstIndexAppend<T>(s: seq<T>, x: T, y: T)
    requires y in s
    ensures y in s + [x] && FirstIndex(s + [x], y) == FirstIndex(s, y)
  {
    assert forall j :: 0 <= j < |s| ==> (s + [x])[j] == s[j];
  }

  /** The distinct elements of `s`, each once, in the order of their first
      occurrence: the order in which a JavaScript object remembers the
      string keys inserted into it. */
  function Distinct<T(==,!new)>(s: seq<T>): (d: seq<T>)
    ensures forall x :: x in d <==> x in s
    ensures forall a, b :: 0 <= a < b < |d| ==> d[a] != d[b]
    decreases |s|
  {
    if s == [] then []
    else
      var d := Distinct(s[..|s| - 1]);
      assert s == s[..|s| - 1] + [s[|s| - 1]];
      if s[|s| - 1] in d then d else d + [s[|s| - 1]]
  }

  /** `Distinct` lists the elements in the order they first appear. */
  lemma {:induction false} DistinctInFirstAppearanceOrder<T(!new)>(s: seq<T>)
    ensures forall a, b :: 0 <= a < b < |Distinct(s)| ==>
              FirstIndex(s, Distinct(s)[a]) < FirstIndex(s, Distinct(s)[b])
    decreases |s|
  {
    if s != [] {
      var p, x := s[..|s| - 1], s[|s| - 1];
      assert s == p + [x];
      DistinctInFirstAppearanceOrder(p);
      var d, d' := Distinct(p), Distinct(s);
      forall y | y in p ensures FirstIndex(s, y) == FirstIndex(p, y) < |p| {
        FirstIndexAppend(p, x, y);
      }
      if x !in d {
        assert d' == d + [x];
        assert FirstIndex(s, x) == |p|;
        forall a, b | 0 <= a < b < |d'|
          ensures FirstIndex(s, d'[a]) < FirstIndex(s, d'[b])
        {
          assert d'[a] == d[a] && d[a] in p;
          if b < |d| {
            assert d'[b] == d[b] && d[b] in p;
          }
        }
      } else {
        assert d' == d;
        forall a, b | 0 <= a < b < |d'|
          ensures FirstIndex(s, d'[a]) < FirstIndex(s, d'[b])
        {
          assert d[a] in p && d[b] in p;
        }
      }
    }
  }

  /** The number of occurrences of `x` in `s`. */
  function Count<T(==)>(s: seq<T>, x: T): (n: nat)
    ensures n <= |s|
    ensures n > 0 <==> x in s
    decreases |s|
  {
    if s == [] then 0
    else
      assert s == s[..|s| - 1] + [s[|s| - 1]];
      Count(s[..|s| - 1], x) + (if s[|s| - 1] == x then 1 else 0)
  }

  function Sum(s: seq<real>): real
    decreases |s|
  {
    if s == [] then 0.0 else Sum(s[..|s| - 1]) + s[|s| - 1]
  }

  /** The arithmetic mean; only asked of non-empty sequences. */
  function Mean(s: seq<real>): real
    requires |s| > 0
  {
    Sum(s) / |s| as real
  }

  /** A mean lies between any bounds of its elements. */
  lemma {:induction false} MeanWithin(s: seq<real>, lo: real, hi: real)
    requires |s| > 0
    requires forall i :: 0 <= i < |s| ==> lo <= s[i] <= hi
    ensures lo <= Mean(s) <= hi
  {
    SumWithin(s, lo, hi);
    var n := |s| as real;
    assert lo * n <= Sum(s) <= hi * n;
    assert Mean(s) * n == Sum(s);
  }

  lemma {:induction false} SumWithin(s: seq<real>, lo: real, hi: real)
    requires forall i :: 0 <= i < |s| ==> lo <= s[i] <= hi
    ensures lo * |s| as real <= Sum(s) <= hi * |s| as real
    decreases |s|
  {
    if s != [] {
      SumWithin(s[..|s| - 1], lo, hi);
    }
  }
}

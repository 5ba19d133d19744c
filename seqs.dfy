/** The array operations the source uses on sheet data and server replies:
    a first-match scan (a `for` loop with an early `return`, or
    `Array.prototype.find`), `filter` and `map`. */
module Seqs {
  import opened Wrappers

  /** The index of the first element satisfying `p`, if any. */
  function FirstWhere<T>(s: seq<T>, p: T -> bool): (r: Option<nat>)
    ensures r.Some? ==> r.value < |s| && p(s[r.value])
    ensures r.Some? ==> forall j | 0 <= j < r.value :: !p(s[j])
    ensures r.None? <==> forall j | 0 <= j < |s| :: !p(s[j])
  {
    if s == [] then None
    else if p(s[0]) then Some(0)
    else match FirstWhere(s[1..], p)
      case None => None
      case Some(k) => Some(k + 1)
  }

  /** The first match is unique: an index whose element matches and that
      has no match before it is the first match. */
  lemma FirstWhereAt<T>(s: seq<T>, p: T -> bool, i: nat)
    requires i < |s| && p(s[i])
    requires forall j | 0 <= j < i :: !p(s[j])
    ensures FirstWhere(s, p) == Some(i)
  {
  }

  /** Changing elements without changing which ones satisfy `p` leaves the
      first match where it was. */
  lemma FirstWhereSameMatches<T>(s: seq<T>, t: seq<T>, p: T -> bool)
    requires |s| == |t|
    requires forall j | 0 <= j < |s| :: p(s[j]) == p(t[j])
    ensures FirstWhere(s, p) == FirstWhere(t, p)
  {
    match FirstWhere(s, p)
    case None =>
    case Some(i) => FirstWhereAt(t, p, i);
  }

  /** `s.filter(p)`: the elements satisfying `p`, in their order in `s`. */
  function Filter<T>(s: seq<T>, p: T -> bool): (r: seq<T>)
    ensures |r| <= |s|
  {
    if s == [] then []
    else Filter(s[..|s| - 1], p) + (if p(s[|s| - 1]) then [s[|s| - 1]] else [])
  }

  /** Filtering a concatenation filters each part and keeps them in order. */
  lemma {:induction false} FilterAppend<T>(a: seq<T>, b: seq<T>, p: T -> bool)
    ensures Filter(a + b, p) == Filter(a, p) + Filter(b, p)
  {
    if b == [] {
      assert a + b == a;
    } else {
      var b', x := b[..|b| - 1], b[|b| - 1];
      var last := if p(x) then [x] else [];
      FilterAppend(a, b', p);
      assert (a + b)[..|a + b| - 1] == a + b';
      calc {
        Filter(a + b, p);
        Filter(a + b', p) + last;
        Filter(a, p) + Filter(b', p) + last;
        Filter(a, p) + (Filter(b', p) + last);
        Filter(a, p) + Filter(b, p);
      }
    }
  }

  /** An element is kept exactly when it occurs in `s` and satisfies `p`. */
  lemma {:induction false} FilterContains<T>(s: seq<T>, p: T -> bool, x: T)
    ensures x in Filter(s, p) <==> x in s && p(x)
  {
    if s != [] {
      var init := s[..|s| - 1];
      FilterContains(init, p, x);
      assert s == init + [s[|s| - 1]];
    }
  }

  /** The filter is non-empty exactly when some element satisfies `p`. */
  lemma FilterNonEmpty<T>(s: seq<T>, p: T -> bool)
    ensures |Filter(s, p)| > 0 <==> exists i | 0 <= i < |s| :: p(s[i])
  {
    if |Filter(s, p)| > 0 {
      var x := Filter(s, p)[0];
      FilterContains(s, p, x);
      var i :| 0 <= i < |s| && s[i] == x;
      assert p(s[i]);
    }
    if exists i | 0 <= i < |s| :: p(s[i]) {
      var i :| 0 <= i < |s| && p(s[i]);
      FilterContains(s, p, s[i]);
    }
  }

  /** Every element of `s` satisfies `p`: filtering keeps all of it. */
  lemma {:induction false} FilterAll<T>(s: seq<T>, p: T -> bool)
    requires forall i | 0 <= i < |s| :: p(s[i])
    ensures Filter(s, p) == s
  {
    if s != [] {
      FilterAll(s[..|s| - 1], p);
    }
  }

  /** `s.map(f)`. */
  function Map<A, B>(s: seq<A>, f: A -> B): (r: seq<B>)
    ensures |r| == |s|
    ensures forall i | 0 <= i < |s| :: r[i] == f(s[i])
  {
    seq(|s|, i requires 0 <= i < |s| => f(s[i]))
  }

  lemma MapAppend<A, B>(a: seq<A>, b: seq<A>, f: A -> B)
    ensures Map(a + b, f) == Map(a, f) + Map(b, f)
  {
  }
  /** `s` without its element at `i`, the rest keeping its order. */
  function RemoveAt<T>(s: seq<T>, i: nat): (r: seq<T>)
    requires i < |s|
    ensures |r| == |s| - 1
  {
    s[..i] + s[i + 1..]
  }

  /** After removing index `i`, the elements before it keep their indices
      and the ones after it move down by one; the removed element is the
      only one missing. */
  lemma RemoveAtShifts<T>(s: seq<T>, i: nat)
    requires i < |s|
    ensures forall k {:trigger RemoveAt(s, i)[k]} | 0 <= k < i :: RemoveAt(s, i)[k] == s[k]
    ensures forall k {:trigger RemoveAt(s, i)[k]} | i <= k < |s| - 1 :: RemoveAt(s, i)[k] == s[k + 1]
    ensures multiset(RemoveAt(s, i)) + multiset{s[i]} == multiset(s)
  {
    assert s == s[..i] + [s[i]] + s[i + 1..];
  }

  /** Filtering `a + [x] + b` keeps `x` between the filters of `a` and `b`
      exactly when `x` satisfies `p`. */
  lemma FilterSplice<T>(a: seq<T>, x: T, b: seq<T>, p: T -> bool)
    ensures Filter(a + [x] + b, p) == Filter(a, p) + (if p(x) then [x] else []) + Filter(b, p)
  {
    FilterAppend(a + [x], b, p);
    FilterAppend(a, [x], p);
    assert Filter([x], p) == (if p(x) then [x] else []) by {
      assert [x][..0] == [];
    }
  }

  /** Removing one element removes it from the filter, if it was kept
      there, and nothing else. */
  lemma FilterRemoveAt<T>(s: seq<T>, i: nat, p: T -> bool)
    requires i < |s|
    ensures |Filter(s, p)| == |Filter(RemoveAt(s, i), p)| + (if p(s[i]) then 1 else 0)
    ensures !p(s[i]) ==> Filter(RemoveAt(s, i), p) == Filter(s, p)
  {
    var a, x, b := s[..i], s[i], s[i + 1..];
    assert s == a + [x] + b;
    assert RemoveAt(s, i) == a + b;
    FilterSplice(a, x, b, p);
    FilterAppend(a, b, p);
    var kept := if p(x) then [x] else [];
    assert |Filter(s, p)| == |Filter(a, p)| + |kept| + |Filter(b, p)|;
  }
}

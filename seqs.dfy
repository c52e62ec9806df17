/**
 * The array operations the views and the server use: `filter`, `filter(..).length`, `find`
 * and a `reduce` that adds up a numeric field.
 */
module Seqs {
  import opened Wrappers

  /** `r` picks elements of `s` out in their original order. */
  ghost predicate IsSubsequence<T>(r: seq<T>, s: seq<T>)
    decreases |s|
  {
    if |r| == 0 then true
    else if |s| == 0 then false
    else (r[0] == s[0] && IsSubsequence(r[1..], s[1..])) || IsSubsequence(r, s[1..])
  }

  /** `s.filter(p)`: the elements satisfying `p`, in order. */
  function Filter<T(!new)>(p: T -> bool, s: seq<T>): (r: seq<T>)
    ensures |r| <= |s|
    ensures forall x :: x in r <==> x in s && p(x)
    ensures IsSubsequence(r, s)
  {
    if |s| == 0 then []
    else if p(s[0]) then [s[0]] + Filter(p, s[1..])
    else Filter(p, s[1..])
  }

  /** `Filter` keeps every element satisfying `p` as many times as it occurs, and drops the rest. */
  lemma {:induction false} FilterMultiset<T(!new)>(p: T -> bool, s: seq<T>)
    ensures forall x :: multiset(Filter(p, s))[x] == if p(x) then multiset(s)[x] else 0
  {
    if |s| > 0 {
      FilterMultiset(p, s[1..]);
      assert s == [s[0]] + s[1..];
    }
  }

  /** `s.filter(p).length`. */
  function Count<T(!new)>(p: T -> bool, s: seq<T>): nat {
    |Filter(p, s)|
  }

  /** `s.reduce((sum, x) => sum + f(x), 0)` over integers. */
  function Sum<T(!new)>(f: T -> int, s: seq<T>): int {
    if |s| == 0 then 0 else f(s[0]) + Sum(f, s[1..])
  }

  /** `s.find(p)`, as the index of the first element satisfying `p`. */
  function Find<T>(p: T -> bool, s: seq<T>): (r: Option<nat>)
    ensures r.Some? ==> r.value < |s| && p(s[r.value])
    ensures r.Some? ==> forall j :: 0 <= j < r.value ==> !p(s[j])
    ensures r.None? ==> forall j :: 0 <= j < |s| ==> !p(s[j])
  {
    if |s| == 0 then None
    else if p(s[0]) then Some(0)
    else match Find(p, s[1..])
      case None => None
      case Some(i) => Some(i + 1)
  }

  /** `find` over a longer sequence still finds the first match of the shorter one. */
  lemma FindInPrefix<T>(p: T -> bool, s: seq<T>, t: seq<T>)
    requires Find(p, s).Some?
    ensures Find(p, s + t) == Find(p, s)
  {
    var i := Find(p, s).value;
    var r := Find(p, s + t);
    assert (s + t)[i] == s[i];
  }

  /** With no match in `s`, a matching element appended at the end is the first match. */
  lemma FindAtEnd<T>(p: T -> bool, s: seq<T>, x: T)
    requires forall j :: 0 <= j < |s| ==> !p(s[j])
    requires p(x)
    ensures Find(p, s + [x]) == Some(|s|)
  {
    var t := s + [x];
    var r := Find(p, t);
    assert p(t[|s|]);
  }

  /** `Filter` on a suffix, one element at a time. */
  lemma FilterFrom<T(!new)>(p: T -> bool, s: seq<T>, k: nat)
    requires k < |s|
    ensures Filter(p, s[k..]) == (if p(s[k]) then [s[k]] else []) + Filter(p, s[k + 1..])
  {
    assert s[k..][1..] == s[k + 1..];
  }

  /** `Count` on a suffix, one element at a time. */
  lemma CountFrom<T(!new)>(p: T -> bool, s: seq<T>, k: nat)
    requires k < |s|
    ensures Count(p, s[k..]) == (if p(s[k]) then 1 else 0) + Count(p, s[k + 1..])
  {
    FilterFrom(p, s, k);
  }

  /** `Sum` on a suffix, one element at a time. */
  lemma SumFrom<T(!new)>(f: T -> int, s: seq<T>, k: nat)
    requires k < |s|
    ensures Sum(f, s[k..]) == f(s[k]) + Sum(f, s[k + 1..])
  {
    assert s[k..][1..] == s[k + 1..];
  }

  /** When every element passes, filtering keeps the whole sequence. */
  lemma {:induction false} FilterAll<T(!new)>(p: T -> bool, s: seq<T>)
    requires forall x :: x in s ==> p(x)
    ensures Filter(p, s) == s
  {
    if |s| > 0 {
      FilterAll(p, s[1..]);
      assert [s[0]] + s[1..] == s;
    }
  }

  /** A stricter predicate keeps a subsequence of what a looser one keeps. */
  lemma {:induction false} FilterMonotone<T(!new)>(loose: T -> bool, strict: T -> bool, s: seq<T>)
    requires forall x :: x in s && strict(x) ==> loose(x)
    ensures IsSubsequence(Filter(strict, s), Filter(loose, s))
  {
    if |s| > 0 {
      FilterMonotone(loose, strict, s[1..]);
      var a, b := Filter(strict, s[1..]), Filter(loose, s[1..]);
      if strict(s[0]) {
        assert Filter(strict, s) == [s[0]] + a && Filter(loose, s) == [s[0]] + b;
        assert ([s[0]] + a)[1..] == a && ([s[0]] + b)[1..] == b;
      } else if loose(s[0]) {
        assert Filter(strict, s) == a && Filter(loose, s) == [s[0]] + b;
        assert ([s[0]] + b)[1..] == b;
      }
    }
  }

  /** Filtering distributes over concatenation. */
  lemma {:induction false} FilterAppend<T(!new)>(p: T -> bool, a: seq<T>, b: seq<T>)
    ensures Filter(p, a + b) == Filter(p, a) + Filter(p, b)
  {
    if |a| == 0 {
      assert a + b == b;
    } else {
      var ab := a + b;
      assert ab[0] == a[0] && ab[1..] == a[1..] + b;
      FilterAppend(p, a[1..], b);
      if p(a[0]) {
        calc {
          Filter(p, ab);
          [a[0]] + Filter(p, a[1..] + b);
          [a[0]] + (Filter(p, a[1..]) + Filter(p, b));
          ([a[0]] + Filter(p, a[1..])) + Filter(p, b);
        }
      }
    }
  }

  /** Two predicates that never hold together count at most the length. */
  lemma {:induction false} CountDisjoint<T(!new)>(p: T -> bool, q: T -> bool, s: seq<T>)
    requires forall x :: x in s ==> !(p(x) && q(x))
    ensures Count(p, s) + Count(q, s) <= |s|
  {
    if |s| > 0 {
      CountDisjoint(p, q, s[1..]);
    }
  }

  /** A stricter predicate counts no more than a looser one. */
  lemma {:induction false} CountMonotone<T(!new)>(loose: T -> bool, strict: T -> bool, s: seq<T>)
    requires forall x :: x in s && strict(x) ==> loose(x)
    ensures Count(strict, s) <= Count(loose, s)
  {
    if |s| > 0 {
      CountMonotone(loose, strict, s[1..]);
    }
  }

  /** A subsequence has no more elements satisfying `p` than the sequence it is taken from. */
  lemma {:induction false} CountSubsequence<T(!new)>(p: T -> bool, r: seq<T>, s: seq<T>)
    requires IsSubsequence(r, s)
    ensures Count(p, r) <= Count(p, s)
    decreases |s|
  {
    if |r| > 0 {
      if r[0] == s[0] && IsSubsequence(r[1..], s[1..]) {
        CountSubsequence(p, r[1..], s[1..]);
      } else {
        CountSubsequence(p, r, s[1..]);
      }
    }
  }

  /** Predicates that agree on every element count the same. */
  lemma {:induction false} CountSame<T(!new)>(p: T -> bool, q: T -> bool, s: seq<T>)
    requires forall x :: x in s ==> (p(x) <==> q(x))
    ensures Count(p, s) == Count(q, s)
  {
    if |s| > 0 {
      CountSame(p, q, s[1..]);
    }
  }

  /** A predicate and its negation split the sequence. */
  lemma {:induction false} CountComplement<T(!new)>(p: T -> bool, q: T -> bool, s: seq<T>)
    requires forall x :: x in s ==> (q(x) <==> !p(x))
    ensures Count(p, s) + Count(q, s) == |s|
  {
    if |s| > 0 {
      CountComplement(p, q, s[1..]);
    }
  }

  /** Adding up over a concatenation adds the two sums. */
  lemma {:induction false} SumAppend<T(!new)>(f: T -> int, a: seq<T>, b: seq<T>)
    ensures Sum(f, a + b) == Sum(f, a) + Sum(f, b)
  {
    if |a| > 0 {
      SumAppend(f, a[1..], b);
      assert (a + b)[1..] == a[1..] + b;
    } else {
      assert a + b == b;
    }
  }

  /** With non-negative terms, the sum over a filtered part is at most the whole sum. */
  lemma {:induction false} SumFilterAtMost<T(!new)>(f: T -> int, p: T -> bool, s: seq<T>)
    requires forall x :: x in s ==> f(x) >= 0
    ensures Sum(f, Filter(p, s)) <= Sum(f, s)
  {
    if |s| > 0 {
      SumFilterAtMost(f, p, s[1..]);
      if p(s[0]) {
        assert Filter(p, s) == [s[0]] + Filter(p, s[1..]);
        assert ([s[0]] + Filter(p, s[1..]))[1..] == Filter(p, s[1..]);
      }
    }
  }

  /** Non-negative terms have a non-negative sum. */
  lemma {:induction false} SumNonNegative<T(!new)>(f: T -> int, s: seq<T>)
    requires forall x :: x in s ==> f(x) >= 0
    ensures Sum(f, s) >= 0
  {
    if |s| > 0 {
      SumNonNegative(f, s[1..]);
    }
  }

  /** A predicate and its negation split the sum into the sums over the two filtered parts. */
  lemma {:induction false} SumComplement<T(!new)>(f: T -> int, p: T -> bool, q: T -> bool, s: seq<T>)
    requires forall x :: x in s ==> (q(x) <==> !p(x))
    ensures Sum(f, Filter(p, s)) + Sum(f, Filter(q, s)) == Sum(f, s)
  {
    if |s| > 0 {
      SumComplement(f, p, q, s[1..]);
      var a, b := Filter(p, s[1..]), Filter(q, s[1..]);
      if p(s[0]) {
        assert Filter(p, s) == [s[0]] + a && ([s[0]] + a)[1..] == a;
      } else {
        assert Filter(q, s) == [s[0]] + b && ([s[0]] + b)[1..] == b;
      }
    }
  }

  /** Terms bounded by `lo` and `hi` give a sum between `|s| * lo` and `|s| * hi`. */
  lemma {:induction false} SumBetween<T(!new)>(f: T -> int, s: seq<T>, lo: int, hi: int)
    requires forall x :: x in s ==> lo <= f(x) <= hi
    ensures |s| * lo <= Sum(f, s) <= |s| * hi
  {
    if |s| > 0 {
      SumBetween(f, s[1..], lo, hi);
      assert |s| * lo == lo + (|s| - 1) * lo;
      assert |s| * hi == hi + (|s| - 1) * hi;
    }
  }
}

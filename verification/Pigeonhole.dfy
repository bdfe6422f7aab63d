/** Counting by distinctness. */
module Pigeonhole {
  ghost predicate Distinct(s: seq<int>) {
    forall i, j :: 0 <= i < j < |s| ==> s[i] != s[j]
  }

  /** Something can be picked from every set but the empty one. */
  lemma HasMember(s: set<int>)
    ensures s == {} || exists x :: x in s
  {
    if forall x :: x !in s {
      assert s == {};
    }
  }

  /** Distinct numbers in a range are no more than the range is long. */
  lemma {:induction false} DistinctBounded(s: seq<int>, lo: int, hi: int)
    requires Distinct(s)
    requires forall i :: 0 <= i < |s| ==> lo <= s[i] < hi
    ensures s == [] || |s| <= hi - lo
    decreases hi - lo
  {
    if s == [] {
    } else if i :| 0 <= i < |s| && s[i] == hi - 1 {
      DistinctBounded(s[..i] + s[i + 1..], lo, hi - 1);
    } else {
      assert lo <= s[0] < hi - 1;
      DistinctBounded(s, lo, hi - 1);
    }
  }

  /** As many distinct numbers as the range is long cover the range. */
  lemma DistinctCovers(s: seq<int>, n: int, x: int)
    requires Distinct(s) && |s| == n && 0 <= x < n
    requires forall i :: 0 <= i < |s| ==> 0 <= s[i] < n
    ensures x in s
  {
    if x !in s {
      DistinctBounded(s + [x], 0, n);
    }
  }

  /** Taking one element out of distinct numbers. */
  lemma DistinctWithout(s: seq<int>, k: nat)
    requires Distinct(s) && k < |s|
    ensures var rest := s[..k] + s[k + 1..];
            Distinct(rest) && s[k] !in rest && forall x :: x in s && x != s[k] ==> x in rest
  {
    var rest := s[..k] + s[k + 1..];
    forall x | x in s && x != s[k] ensures x in rest {
      var i :| 0 <= i < |s| && s[i] == x;
      assert rest[if i < k then i else i - 1] == x;
    }
  }

  /** A list without repetition has as many elements as places. */
  lemma {:induction false} DistinctSize(s: seq<int>)
    requires Distinct(s)
    ensures |set x | x in s| == |s|
  {
    if s != [] {
      var rest := s[1..];
      DistinctSize(rest);
      assert s == [s[0]] + rest;
      assert (set x | x in s) == (set x | x in rest) + {s[0]};
    }
  }

  // ----- sums over the numbers below n

  function Sum(f: int -> int, n: int): int {
    if n <= 0 then 0 else Sum(f, n - 1) + f(n - 1)
  }

  lemma {:induction false} SumIsNonnegative(f: int -> int, n: int)
    requires forall x :: f(x) >= 0
    ensures Sum(f, n) >= 0
    decreases n
  {
    if n > 0 {
      SumIsNonnegative(f, n - 1);
    }
  }

  lemma {:induction false} SumOfZeros(f: int -> int, n: int, n': int)
    requires 0 <= n <= n' && forall x :: n <= x < n' ==> f(x) == 0
    ensures Sum(f, n') == Sum(f, n)
    decreases n'
  {
    if n < n' {
      SumOfZeros(f, n, n' - 1);
    }
  }

  function In(s: set<int>): int -> int {
    x => if x in s then 1 else 0
  }

  lemma {:induction false} SumBound(f: int -> int, g: int -> int, n: int, down: set<int>, up: set<int>)
    requires forall x :: 0 <= x < n ==> g(x) <= f(x) + In(up)(x) - In(down)(x)
    ensures Sum(g, n) <= Sum(f, n) + Sum(In(up), n) - Sum(In(down), n)
    decreases n
  {
    if n > 0 {
      SumBound(f, g, n - 1, down, up);
    }
  }

  /** How many members are below n. */
  lemma {:induction false} SumOfMembers(s: set<int>, n: int)
    ensures Sum(In(s), n) == |set x | x in s && 0 <= x < n|
    decreases n
  {
    var below := set x | x in s && 0 <= x < n;
    if n <= 0 {
      assert below == {};
    } else {
      SumOfMembers(s, n - 1);
      var rest := set x | x in s && 0 <= x < n - 1;
      assert below == if n - 1 in s then rest + {n - 1} else rest;
    }
  }

  lemma {:induction false} SubsetSize(s: set<int>, t: set<int>)
    requires s <= t
    ensures |s| <= |t|
  {
    assert t == s + (t - s);
  }

  /** Every term may fall; those of `down` do by one at least, and those of `up` may rise by one. */
  lemma SumChanges(f: int -> int, g: int -> int, n: int, down: set<int>, up: set<int>)
    requires forall x :: x in down ==> 0 <= x < n
    requires forall x :: 0 <= x < n ==> g(x) <= f(x) + (if x in up then 1 else 0) - (if x in down then 1 else 0)
    ensures Sum(g, n) <= Sum(f, n) + |up| - |down|
  {
    SumBound(f, g, n, down, up);
    SumOfMembers(down, n);
    SumOfMembers(up, n);
    assert (set x | x in down && 0 <= x < n) == down;
    SubsetSize((set x | x in up && 0 <= x < n), up);
  }
}

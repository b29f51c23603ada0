/** Number-theoretic vocabulary the aliquot model is stated in: the integer
    square root that bounds trial division, exact division, proper divisors
    listed by brute force as a reference, and the total of a list. */
module Numbers {

  /** The integer square root of n: the largest m with m * m <= n. */
  function FloorSqrt(n: nat): (m: nat)
    ensures m * m <= n < (m + 1) * (m + 1)
  {
    SqrtFrom(n, 0)
  }

  /** Counts upward from a candidate m whose square does not exceed n. */
  function SqrtFrom(n: nat, m: nat): (r: nat)
    requires m * m <= n
    ensures m <= r && r * r <= n < (r + 1) * (r + 1)
    decreases n - m
  {
    SquareAtLeast(m);
    if n < (m + 1) * (m + 1) then m else SqrtFrom(n, m + 1)
  }

  /** A natural number does not exceed its square. */
  lemma SquareAtLeast(m: nat)
    ensures m <= m * m
  {
    if m >= 1 {
      MulMono(1, m, m);
    }
  }

  /** Multiplying by a non-negative factor keeps an inequality. */
  lemma MulMono(a: int, b: int, c: int)
    requires a <= b && 0 <= c
    ensures a * c <= b * c
  {
    assert b * c - a * c == (b - a) * c;
  }

  /** Any m with m * m <= n < (m + 1) * (m + 1) is the integer square root. */
  lemma FloorSqrtUnique(n: nat, m: nat)
    requires m * m <= n < (m + 1) * (m + 1)
    ensures FloorSqrt(n) == m
  {
    var r := FloorSqrt(n);
    if r < m {
      MulMono(r + 1, m, r + 1);
      MulMono(r + 1, m, m);
      assert false;
    } else if r > m {
      MulMono(m + 1, r, m + 1);
      MulMono(m + 1, r, r);
      assert false;
    }
  }

  /** The integer square root of n >= 2 lies strictly between 0 and n. */
  lemma FloorSqrtBelow(n: nat)
    requires n >= 2
    ensures 1 <= FloorSqrt(n) < n
  {
    var m := FloorSqrt(n);
    if m >= n {
      MulMono(n, m, m);
      MulMono(2, n, n);
      assert false;
    }
  }

  /** Dividing an exact product by one factor gives back the other. */
  lemma DivExact(a: int, b: int)
    requires b > 0
    ensures (a * b) / b == a && (a * b) % b == 0
  {
    var q, r := (a * b) / b, (a * b) % b;
    assert a * b == q * b + r && 0 <= r < b;
    assert (a - q) * b == r;
    if a - q >= 1 {
      MulMono(1, a - q, b);
      assert false;
    } else if a - q <= -1 {
      MulMono(a - q, -1, b);
      assert false;
    }
  }

  /** For a divisor i of n, the cofactor n / i is a divisor of n too, and i is
      its own cofactor's cofactor. */
  lemma Cofactor(n: int, i: int)
    requires n >= 1 && i >= 1 && n % i == 0
    ensures i * (n / i) == n && 1 <= n / i <= n
    ensures n % (n / i) == 0 && n / (n / i) == i
  {
    var c := n / i;
    assert n == c * i;
    if c <= 0 {
      MulMono(c, 0, i);
      assert false;
    }
    MulMono(1, i, c);
    DivExact(i, c);
  }

  /** d is a proper divisor of n: it divides n and is smaller than n. */
  predicate IsProperDivisor(d: int, n: int) {
    1 <= d < n && n % d == 0
  }

  /** The divisors of n that lie in [1, k), in increasing order: the
      brute-force reference against which trial division is judged. */
  function DivisorsBelow(n: int, k: nat): seq<int>
  {
    if k <= 1 then []
    else DivisorsBelow(n, k - 1) + (if n % (k - 1) == 0 then [k - 1] else [])
  }

  /** All proper divisors of n, in increasing order. */
  function ProperDivisors(n: nat): seq<int>
  {
    DivisorsBelow(n, n)
  }

  /** Every value of DivisorsBelow(n, k) is a divisor of n below k, and every
      such divisor is in it; the list has no repeated value. */
  lemma {:induction false} DivisorsBelowSpec(n: int, k: nat)
    ensures forall x :: x in DivisorsBelow(n, k) <==> 1 <= x < k && n % x == 0
    ensures Distinct(DivisorsBelow(n, k))
  {
    if k > 1 {
      DivisorsBelowSpec(n, k - 1);
      var tail := if n % (k - 1) == 0 then [k - 1] else [];
      DistinctConcat(DivisorsBelow(n, k - 1), tail);
    }
  }

  /** The proper divisors of n are exactly what ProperDivisors lists, once each. */
  lemma ProperDivisorsSpec(n: nat)
    ensures forall x :: x in ProperDivisors(n) <==> IsProperDivisor(x, n)
    ensures Distinct(ProperDivisors(n))
  {
    DivisorsBelowSpec(n, n);
  }

  /** No value occurs twice in s. */
  predicate Distinct(s: seq<int>) {
    forall i, j :: 0 <= i < j < |s| ==> s[i] != s[j]
  }

  /** Two repetition-free lists with no common value concatenate to a
      repetition-free list. */
  lemma DistinctConcat(a: seq<int>, b: seq<int>)
    requires Distinct(a) && Distinct(b)
    requires forall x :: x in a ==> x !in b
    ensures Distinct(a + b)
  {
    forall i, j | 0 <= i < j < |a + b|
      ensures (a + b)[i] != (a + b)[j]
    {
      if j < |a| {
      } else if i >= |a| {
        assert (a + b)[i] == b[i - |a|] && (a + b)[j] == b[j - |a|];
      } else {
        assert (a + b)[i] == a[i] && (a + b)[j] == b[j - |a|];
        assert a[i] in a && b[j - |a|] in b;
      }
    }
  }

  /** In a repetition-free list every value occurs at most once. */
  lemma {:induction false} DistinctMultiplicity(s: seq<int>, x: int)
    requires Distinct(s)
    ensures multiset(s)[x] == if x in s then 1 else 0
  {
    if s != [] {
      assert s == [s[0]] + s[1..];
      assert Distinct(s[1..]) by {
        forall i, j | 0 <= i < j < |s[1..]| ensures s[1..][i] != s[1..][j] {
          assert s[1..][i] == s[i + 1] && s[1..][j] == s[j + 1];
        }
      }
      assert s[0] !in s[1..] by {
        forall j | 0 <= j < |s[1..]| ensures s[1..][j] != s[0] {
          assert s[1..][j] == s[j + 1];
        }
      }
      DistinctMultiplicity(s[1..], x);
      assert x in s <==> x == s[0] || x in s[1..];
    }
  }

  /** Two repetition-free lists with the same values are permutations of each
      other. */
  lemma SameValuesSameMultiset(a: seq<int>, b: seq<int>)
    requires Distinct(a) && Distinct(b)
    requires forall x :: x in a <==> x in b
    ensures multiset(a) == multiset(b)
  {
    forall x ensures multiset(a)[x] == multiset(b)[x] {
      DistinctMultiplicity(a, x);
      DistinctMultiplicity(b, x);
    }
  }

  /** The arithmetic total of a list, 0 for the empty list. */
  function Total(s: seq<int>): int
  {
    if s == [] then 0 else s[0] + Total(s[1..])
  }

  /** The total of a concatenation is the sum of the totals. */
  lemma {:induction false} TotalConcat(a: seq<int>, b: seq<int>)
    ensures Total(a + b) == Total(a) + Total(b)
  {
    if a != [] {
      assert (a + b)[0] == a[0] && (a + b)[1..] == a[1..] + b;
      TotalConcat(a[1..], b);
      calc {
        Total(a + b);
        a[0] + Total(a[1..] + b);
        a[0] + Total(a[1..]) + Total(b);
      }
    } else {
      assert a + b == b;
    }
  }

  /** Reordering a list does not change its total. */
  lemma {:induction false} TotalPermutation(a: seq<int>, b: seq<int>)
    requires multiset(a) == multiset(b)
    ensures Total(a) == Total(b)
    decreases |a|
  {
    if a == [] {
      assert |b| == |multiset(b)| == 0;
    } else {
      var x := a[0];
      assert x in multiset(b);
      var j :| 0 <= j < |b| && b[j] == x;
      var rest := b[..j] + b[j + 1..];
      assert b == b[..j] + [x] + b[j + 1..];
      assert a == [x] + a[1..];
      assert multiset(b) == multiset(b[..j]) + multiset{x} + multiset(b[j + 1..]);
      assert multiset(a) == multiset{x} + multiset(a[1..]);
      assert multiset(rest) == multiset(b[..j]) + multiset(b[j + 1..]);
      assert multiset(rest) == multiset(b) - multiset{x};
      assert multiset(a[1..]) == multiset(a) - multiset{x};
      TotalPermutation(a[1..], rest);
      TotalConcat(b[..j] + [x], b[j + 1..]);
      TotalConcat(b[..j], [x]);
      TotalConcat(b[..j], b[j + 1..]);
    }
  }

  /** A list of positive values totals at least each of its values. */
  lemma {:induction false} TotalAtLeastMember(s: seq<int>, x: int)
    requires forall i :: 0 <= i < |s| ==> s[i] >= 1
    requires x in s
    ensures Total(s) >= x
  {
    if s[0] != x {
      TotalAtLeastMember(s[1..], x);
    }
    TotalNonNegative(s[1..]);
  }

  /** A list of positive values has a non-negative total. */
  lemma {:induction false} TotalNonNegative(s: seq<int>)
    requires forall i :: 0 <= i < |s| ==> s[i] >= 1
    ensures Total(s) >= 0
  {
    if s != [] {
      TotalNonNegative(s[1..]);
    }
  }
}

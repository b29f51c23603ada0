/** The aliquot script: trial-division factor lists (faclist), their total
    (sum), and the driver loop that follows an aliquot sequence from a
    starting number, with the script's module-level list `facs` held by the
    class Script. */
module Aliquot {
  import opened Numbers

  // ---------------------------------------------------------------------
  // faclist, as a specification

  /** What one pass of faclist's loop appends for the candidate i: i itself
      when it divides n, then its cofactor n / i unless that is n (i == 1)
      or i again (a perfect square). */
  function Appended(n: int, i: int): seq<int>
    requires i >= 1
  {
    if n % i == 0 then
      [i] + (if n / i != n && i != n / i then [n / i] else [])
    else []
  }

  /** What faclist appends for the candidates 1..k, in order. */
  function FacUpTo(n: int, k: nat): seq<int>
  {
    if k == 0 then [] else FacUpTo(n, k - 1) + Appended(n, k)
  }

  /** What faclist(n) appends: trial division up to the integer square root. */
  function FacList(n: nat): seq<int>
  {
    FacUpTo(n, FloorSqrt(n))
  }

  /** The aliquot sum as the script computes it: sum(faclist(n)). It is at
      least 1 for every n >= 1, since 1 is always listed. */
  function AliquotSum(n: nat): (s: nat)
    ensures n >= 1 ==> s >= 1
  {
    FacListTotalPositive(n);
    Total(FacList(n))
  }

  // ---------------------------------------------------------------------
  // What trial division finds

  /** A divisor above the integer square root has its cofactor at or below it,
      and strictly below itself. */
  lemma LargeDivisorHasSmallCofactor(n: nat, d: int)
    requires n >= 1 && d >= 1 && n % d == 0 && d > FloorSqrt(n)
    ensures 1 <= n / d <= FloorSqrt(n) && n / d < d
  {
    var m, c := FloorSqrt(n), n / d;
    Cofactor(n, d);
    assert c * d == n;
    if c > m {
      MulMono(m + 1, c, m + 1);
      MulMono(m + 1, d, c);
      assert false;
    }
  }

  /** The cofactor that faclist appends for a candidate i at or below the
      integer square root lies above the square root. */
  lemma AppendedCofactorIsLarge(n: nat, i: int)
    requires n >= 1 && 1 <= i <= FloorSqrt(n) && n % i == 0 && n / i != i
    ensures n / i > FloorSqrt(n)
  {
    var m, c := FloorSqrt(n), n / i;
    Cofactor(n, i);
    if c <= m {
      MulMono(i, m, c);
      MulMono(c, m, m);
      if i < m {
        MulMono(1, m - i, c);
      } else if c < m {
        MulMono(1, m - c, m);
      }
      assert false;
    }
  }

  /** What the candidate k appends: k when it divides n, and the divisor
      above the square root whose cofactor is k. */
  lemma AppendedMembers(n: nat, k: nat, x: int)
    requires n >= 2 && 1 <= k <= FloorSqrt(n)
    ensures x in Appended(n, k) <==>
      IsProperDivisor(x, n) && (if x <= FloorSqrt(n) then x == k else n / x == k)
  {
    FloorSqrtBelow(n);
    if n % k == 0 {
      Cofactor(n, k);
      if n / k != k {
        AppendedCofactorIsLarge(n, k);
      }
    }
    if IsProperDivisor(x, n) && x > FloorSqrt(n) {
      Cofactor(n, x);
    }
  }

  /** Membership in FacUpTo(n, k): a value is listed after the candidates
      1..k exactly when it is a proper divisor of n reached so far, either
      itself (at or below the square root) or as the cofactor of a candidate
      (above it). */
  lemma {:induction false} FacUpToMembers(n: nat, k: nat, x: int)
    requires n >= 2 && k <= FloorSqrt(n)
    ensures x in FacUpTo(n, k) <==>
      IsProperDivisor(x, n) && (if x <= FloorSqrt(n) then x <= k else n / x <= k)
  {
    if k > 0 {
      FacUpToMembers(n, k - 1, x);
      AppendedMembers(n, k, x);
      assert x in FacUpTo(n, k) <==> x in FacUpTo(n, k - 1) || x in Appended(n, k);
    } else if IsProperDivisor(x, n) && x > FloorSqrt(n) {
      LargeDivisorHasSmallCofactor(n, x);
    }
  }

  /** A candidate k at or below the square root is not listed before its turn. */
  lemma CandidateIsNew(n: nat, k: nat)
    requires n >= 2 && 1 <= k <= FloorSqrt(n)
    ensures k !in FacUpTo(n, k - 1)
  {
    FacUpToMembers(n, k - 1, k);
  }

  /** The cofactor appended for the candidate k is not listed before k's turn. */
  lemma CofactorIsNew(n: nat, k: nat)
    requires n >= 2 && 1 <= k <= FloorSqrt(n) && n % k == 0 && n / k != k
    ensures n / k !in FacUpTo(n, k - 1)
  {
    var c := n / k;
    Cofactor(n, k);
    AppendedCofactorIsLarge(n, k);
    assert n / c == k;
    FacUpToMembers(n, k - 1, c);
  }

  /** What the candidate k appends was not listed by the candidates before it. */
  lemma AppendedIsNew(n: nat, k: nat, x: int)
    requires n >= 2 && 1 <= k <= FloorSqrt(n) && x in Appended(n, k)
    ensures x !in FacUpTo(n, k - 1)
  {
    if x == k {
      CandidateIsNew(n, k);
    } else {
      CofactorIsNew(n, k);
    }
  }

  /** No value is appended twice by faclist's loop. */
  lemma {:induction false} FacUpToDistinct(n: nat, k: nat)
    requires n >= 2 && k <= FloorSqrt(n)
    ensures Distinct(FacUpTo(n, k))
  {
    if k > 0 {
      FacUpToDistinct(n, k - 1);
      var a := Appended(n, k);
      forall x | x in FacUpTo(n, k - 1) ensures x !in a {
        if x in a {
          AppendedIsNew(n, k, x);
        }
      }
      if n % k == 0 && n / k != k {
        AppendedCofactorIsLarge(n, k);
      }
      DistinctConcat(FacUpTo(n, k - 1), a);
    }
  }

  /** For n >= 2, faclist(n) lists exactly the proper divisors of n, each
      once: n itself is never listed and a square root is not doubled. */
  lemma FacListIsProperDivisors(n: nat)
    requires n >= 2
    ensures forall d :: d in FacList(n) <==> IsProperDivisor(d, n)
    ensures Distinct(FacList(n))
  {
    var m := FloorSqrt(n);
    assert FacList(n) == FacUpTo(n, m);
    forall d: int ensures d in FacList(n) <==> IsProperDivisor(d, n) {
      FacUpToMembers(n, m, d);
      if IsProperDivisor(d, n) && d > m {
        LargeDivisorHasSmallCofactor(n, d);
      }
    }
    FacUpToDistinct(n, m);
  }

  /** For n >= 2 the script's aliquot sum is the sum of all proper divisors,
      the brute-force reference. */
  lemma AliquotSumIsDivisorSum(n: nat)
    requires n >= 2
    ensures AliquotSum(n) == Total(ProperDivisors(n))
  {
    FacListIsProperDivisors(n);
    ProperDivisorsSpec(n);
    SameValuesSameMultiset(FacList(n), ProperDivisors(n));
    TotalPermutation(FacList(n), ProperDivisors(n));
  }

  /** faclist(1) lists 1, because the candidate 1 is appended before the
      cofactor test; the computed aliquot sum of 1 is therefore 1. */
  lemma FacListOfOne()
    ensures FacList(1) == [1] && Total(FacList(1)) == 1
  {
    assert [1][1..] == [];
  }

  /** p is prime: at least 2 and without a divisor strictly between 1 and p. */
  predicate IsPrime(p: nat) {
    p >= 2 && forall d :: 1 < d < p ==> p % d != 0
  }

  /** Trial division of a prime finds 1 alone. */
  lemma {:induction false} FacUpToOfPrime(p: nat, k: nat)
    requires IsPrime(p) && 1 <= k <= FloorSqrt(p)
    ensures FacUpTo(p, k) == [1]
  {
    FloorSqrtBelow(p);
    if k > 1 {
      FacUpToOfPrime(p, k - 1);
      assert p % k != 0;
    }
  }

  /** faclist(p) of a prime p is [1], so its aliquot sum is 1. */
  lemma FacListOfPrime(p: nat)
    requires IsPrime(p)
    ensures FacList(p) == [1] && AliquotSum(p) == 1
  {
    FloorSqrtBelow(p);
    FacUpToOfPrime(p, FloorSqrt(p));
    assert [1][1..] == [];
  }

  /** The list faclist(n) totals at least 1 for n >= 1, since 1 is always
      listed and every listed value is positive; for n == 0 it is empty. */
  lemma FacListTotalPositive(n: nat)
    ensures Total(FacList(n)) >= (if n >= 1 then 1 else 0)
  {
    if n == 0 {
      assert FacList(0) == [];
    } else if n == 1 {
      FacListOfOne();
    } else {
      FacListIsProperDivisors(n);
      assert IsProperDivisor(1, n);
      forall i | 0 <= i < |FacList(n)| ensures FacList(n)[i] >= 1 {
        assert FacList(n)[i] in FacList(n);
      }
      TotalAtLeastMember(FacList(n), 1);
    }
  }

  /** The first perfect numbers the script warns about (6, 28, 496) are
      fixed points of the aliquot sum. */
  lemma PerfectNumbers()
    ensures AliquotSum(6) == 6 && AliquotSum(28) == 28 && AliquotSum(496) == 496
  {
    FacListOf6();
    FacListOf28();
    FacListOf496();
  }

  /** Trial division of 6 up to its square root 2. */
  lemma FacListOf6()
    ensures FacList(6) == [1, 2, 3] && AliquotSum(6) == 6
  {
  }

  /** Trial division of 28 up to its square root 5. */
  lemma FacListOf28()
    ensures FacList(28) == [1, 2, 14, 4, 7] && AliquotSum(28) == 28
  {
  }

  /** Trial division of 496 up to its square root 22, candidate by candidate. */
  lemma FacListOf496()
    ensures FacList(496) == [1, 2, 248, 4, 124, 8, 62, 16, 31] && AliquotSum(496) == 496
  {
    FloorSqrtUnique(496, 22);
    FacUpTo496High();
  }

  /** The candidates 1..7 for 496. */
  lemma FacUpTo496Low()
    ensures FacUpTo(496, 7) == [1, 2, 248, 4, 124]
  {
    assert FacUpTo(496, 1) == [1];
    assert FacUpTo(496, 2) == [1, 2, 248];
    assert FacUpTo(496, 3) == [1, 2, 248];
    assert FacUpTo(496, 4) == [1, 2, 248, 4, 124];
    assert FacUpTo(496, 5) == [1, 2, 248, 4, 124];
    assert FacUpTo(496, 6) == [1, 2, 248, 4, 124];
  }

  /** The candidates 8..15 for 496. */
  lemma FacUpTo496Mid()
    ensures FacUpTo(496, 15) == [1, 2, 248, 4, 124, 8, 62]
  {
    FacUpTo496Low();
    assert FacUpTo(496, 8) == [1, 2, 248, 4, 124, 8, 62];
    assert FacUpTo(496, 9) == [1, 2, 248, 4, 124, 8, 62];
    assert FacUpTo(496, 10) == [1, 2, 248, 4, 124, 8, 62];
    assert FacUpTo(496, 11) == [1, 2, 248, 4, 124, 8, 62];
    assert FacUpTo(496, 12) == [1, 2, 248, 4, 124, 8, 62];
    assert FacUpTo(496, 13) == [1, 2, 248, 4, 124, 8, 62];
    assert FacUpTo(496, 14) == [1, 2, 248, 4, 124, 8, 62];
  }

  /** The candidates 16..22 for 496. */
  lemma FacUpTo496High()
    ensures FacUpTo(496, 22) == [1, 2, 248, 4, 124, 8, 62, 16, 31]
  {
    FacUpTo496Mid();
    assert FacUpTo(496, 16) == [1, 2, 248, 4, 124, 8, 62, 16, 31];
    assert FacUpTo(496, 17) == [1, 2, 248, 4, 124, 8, 62, 16, 31];
    assert FacUpTo(496, 18) == [1, 2, 248, 4, 124, 8, 62, 16, 31];
    assert FacUpTo(496, 19) == [1, 2, 248, 4, 124, 8, 62, 16, 31];
    assert FacUpTo(496, 20) == [1, 2, 248, 4, 124, 8, 62, 16, 31];
    assert FacUpTo(496, 21) == [1, 2, 248, 4, 124, 8, 62, 16, 31];
  }

  // ---------------------------------------------------------------------
  // sum

  /** sum(L): adds up the list with an accumulator. */
  method Sum(L: seq<int>) returns (total: int)
    ensures total == Total(L)
  {
    total := 0;
    for i := 0 to |L|
      invariant total == Total(L[..i])
    {
      assert L[..i + 1] == L[..i] + [L[i]];
      TotalConcat(L[..i], [L[i]]);
      total := total + L[i];
    }
    assert L[..|L|] == L;
  }

  // ---------------------------------------------------------------------
  // The driver, as a specification

  /** The starting numbers whose sequences are cut off after TermCap terms. */
  const Special: set<int> := {276, 552, 564, 660, 966, 996}

  /** How many terms a sequence from a special starting number may have. */
  const TermCap: nat := 81

  /** The driver's loop variables: the current term S, the flag first, the
      number of terms produced (count), their running maximum (max), and the
      terms themselves in order (the values whose logarithms are plotted). */
  datatype Driver = Driver(s: nat, first: bool, count: nat, max: nat, terms: seq<nat>)

  /** How a bounded run of the driver ends: the loop condition failed, the
      special-input break fired, or the step bound ran out while the script
      would still be looping. */
  datatype Outcome = Decayed | Capped | OutOfFuel

  /** The loop variables before the first iteration. */
  function Start(): Driver {
    Driver(0, true, 0, 0, [])
  }

  /** The while condition: S > 1 or first. */
  predicate Running(d: Driver) {
    d.s > 1 || d.first
  }

  /** The early break: a special starting number and at least TermCap terms. */
  predicate CapReached(special: set<int>, r: int, d: Driver) {
    r in special && d.count >= TermCap
  }

  /** One iteration of the driver loop, without the break test: the aliquot
      sum of R while S is still 0, of S afterwards. */
  function Next(r: nat, d: Driver): Driver
    requires r >= 1
  {
    var s := if d.s == 0 then AliquotSum(r) else AliquotSum(d.s);
    Driver(s, if d.s == 0 then false else d.first, d.count + 1,
           if d.max < s then s else d.max, d.terms + [s])
  }

  /** At most fuel further iterations of the driver loop from d, with the
      early break; the outcome says why the run stopped, and count grows by
      one per iteration run. */
  function Loop(special: set<int>, r: nat, d: Driver, fuel: nat): (res: (Driver, Outcome))
    requires r >= 1
    ensures d.count <= res.0.count <= d.count + fuel
    ensures res.1 == Decayed ==> !Running(res.0)
    ensures res.1 == Capped ==> CapReached(special, r, res.0) && res.0.count > d.count
    ensures res.1 == OutOfFuel ==> Running(res.0) && res.0.count == d.count + fuel
    decreases fuel
  {
    if !Running(d) then (d, Decayed)
    else if fuel == 0 then (d, OutOfFuel)
    else
      var e := Next(r, d);
      if CapReached(special, r, e) then (e, Capped) else Loop(special, r, e, fuel - 1)
  }

  /** The driver run from the starting number r for at most fuel iterations. */
  function Sequence(special: set<int>, r: nat, fuel: nat): (Driver, Outcome)
    requires r >= 1
  {
    Loop(special, r, Start(), fuel)
  }

  // ---------------------------------------------------------------------
  // The driver's invariant

  /** ts is the aliquot sequence of r, without r itself: its first term is
      the aliquot sum of r and each later term the aliquot sum of the one
      before. */
  predicate IsAliquotChain(r: nat, ts: seq<nat>) {
    (|ts| > 0 ==> ts[0] == AliquotSum(r)) &&
    (forall k :: 1 <= k < |ts| ==> ts[k] == AliquotSum(ts[k - 1]))
  }

  /** What holds of the loop variables at the top of every iteration: the
      terms so far form the aliquot sequence of R, count is their number, S
      is the last of them (0 before the first), first holds until the first
      iteration, and max is the largest of them (0 before the first). */
  predicate Inv(r: nat, d: Driver) {
    r >= 1 && IsAliquotChain(r, d.terms) && d.count == |d.terms| &&
    (d.first <==> d.terms == []) &&
    d.s == (if d.terms == [] then 0 else d.terms[|d.terms| - 1]) &&
    (forall t :: t in d.terms ==> 1 <= t <= d.max) &&
    (if d.terms == [] then d.max == 0 else d.max in d.terms)
  }

  /** One iteration keeps the invariant, appends exactly one term and adds
      one to count. */
  lemma NextKeepsInv(r: nat, d: Driver)
    requires Inv(r, d)
    ensures Inv(r, Next(r, d))
    ensures Next(r, d).count == d.count + 1 && Next(r, d).terms == d.terms + [Next(r, d).s]
  {
    var e := Next(r, d);
    assert e.terms[|e.terms| - 1] == e.s;
    forall k | 1 <= k < |e.terms| ensures e.terms[k] == AliquotSum(e.terms[k - 1]) {
      if k < |d.terms| {
        assert e.terms[k] == d.terms[k] && e.terms[k - 1] == d.terms[k - 1];
      } else {
        assert e.terms[k - 1] == d.terms[k - 1] == d.s;
        assert d.terms[k - 1] in d.terms;
      }
    }
  }

  /** A bounded run keeps the invariant; the terms it started with stay as
      they were and new ones are only appended. */
  lemma {:induction false} LoopKeepsInv(special: set<int>, r: nat, d: Driver, fuel: nat)
    requires Inv(r, d)
    ensures Inv(r, Loop(special, r, d, fuel).0) && d.terms <= Loop(special, r, d, fuel).0.terms
    decreases fuel
  {
    if Running(d) && fuel > 0 {
      NextKeepsInv(r, d);
      var e := Next(r, d);
      if !CapReached(special, r, e) {
        LoopKeepsInv(special, r, e, fuel - 1);
      }
    }
  }

  /** The whole run from the start keeps the invariant: its terms are the
      aliquot sequence of r, count is their number and max their largest. */
  lemma SequenceKeepsInv(special: set<int>, r: nat, fuel: nat)
    requires r >= 1
    ensures Inv(r, Sequence(special, r, fuel).0)
  {
    LoopKeepsInv(special, r, Start(), fuel);
  }

  // ---------------------------------------------------------------------
  // What the driver does

  /** One iteration of a running loop with fuel left, spelled out. */
  lemma LoopUnfold(special: set<int>, r: nat, d: Driver, fuel: nat)
    requires r >= 1 && Running(d) && fuel >= 1
    ensures Loop(special, r, d, fuel) ==
      if CapReached(special, r, Next(r, d)) then (Next(r, d), Capped) else Loop(special, r, Next(r, d), fuel - 1)
  {
  }

  /** Well below the cap, a running loop with fuel left just takes one more
      step, whatever the special set. */
  lemma LoopStep(special: set<int>, r: nat, d: Driver, fuel: nat)
    requires r >= 1 && Running(d) && fuel >= 1 && d.count + 1 < TermCap
    ensures Loop(special, r, d, fuel) == Loop(special, r, Next(r, d), fuel - 1)
  {
    LoopUnfold(special, r, d, fuel);
  }

  /** The step LoopStep takes, with the state after it given as e. */
  lemma LoopTakes(special: set<int>, r: nat, d: Driver, e: Driver, fuel: nat)
    requires r >= 1 && Running(d) && fuel >= 1 && d.count + 1 < TermCap
    requires e.s == AliquotSum(if d.s == 0 then r else d.s)
    requires e.first == (d.s != 0 && d.first) && e.count == d.count + 1
    requires e.max == (if d.max < e.s then e.s else d.max) && e.terms == d.terms + [e.s]
    ensures Loop(special, r, d, fuel) == Loop(special, r, e, fuel - 1)
  {
    LoopStep(special, r, d, fuel);
  }

  /** The first iteration always runs (first holds at the start) and its
      term is the aliquot sum of R; when the run ends because the loop
      condition fails, the last term is exactly 1. */
  lemma SequenceEndsAtOne(special: set<int>, r: nat, fuel: nat)
    requires r >= 1
    ensures var (e, o) := Sequence(special, r, fuel);
      (fuel >= 1 ==> e.count >= 1 && e.terms != [] && e.terms[0] == AliquotSum(r)) &&
      (o == Decayed ==> e.s == 1 && e.terms != [] && e.terms[|e.terms| - 1] == 1)
  {
    var (e, o) := Sequence(special, r, fuel);
    SequenceKeepsInv(special, r, fuel);
    if fuel >= 1 {
      LoopUnfold(special, r, Start(), fuel);
      var d := Next(r, Start());
      assert d.terms == [AliquotSum(r)];
      if !CapReached(special, r, d) {
        LoopKeepsInv(special, r, d, fuel - 1);
      }
      assert d.terms <= e.terms;
    }
    if o == Decayed {
      assert e.terms != [];
      assert e.terms[|e.terms| - 1] in e.terms;
    }
  }

  /** From a state below the cap, a run from a special starting number stops
      with at most TermCap terms, and with exactly TermCap when capped. */
  lemma {:induction false} LoopWithinCap(special: set<int>, r: nat, d: Driver, fuel: nat)
    requires r >= 1 && r in special && d.count < TermCap
    ensures Loop(special, r, d, fuel).0.count <= TermCap
    ensures Loop(special, r, d, fuel).1 == Capped <==> Loop(special, r, d, fuel).0.count == TermCap
    decreases fuel
  {
    if Running(d) && fuel > 0 {
      LoopUnfold(special, r, d, fuel);
      var e := Next(r, d);
      if !CapReached(special, r, e) {
        LoopWithinCap(special, r, e, fuel - 1);
      }
    }
  }

  /** A run from a special starting number never has more than TermCap terms
      and is capped at exactly TermCap; from any other number the early break
      never fires. */
  lemma SpecialCap(special: set<int>, r: nat, fuel: nat)
    requires r >= 1
    ensures r in special ==> Sequence(special, r, fuel).0.count <= TermCap
    ensures Sequence(special, r, fuel).1 == Capped <==> r in special && Sequence(special, r, fuel).0.count == TermCap
  {
    if r in special {
      LoopWithinCap(special, r, Start(), fuel);
    }
  }

  /** Once the current term is a fixed point of the aliquot sum above 1, and
      the start is not special, every further iteration repeats it: the run
      uses up all its fuel and never ends on its own. */
  lemma {:induction false} FixedPointLoops(special: set<int>, r: nat, d: Driver, fuel: nat)
    requires r >= 1 && r !in special && !d.first
    requires d.s >= 2 && AliquotSum(d.s) == d.s
    ensures Loop(special, r, d, fuel).1 == OutOfFuel
    ensures Loop(special, r, d, fuel).0.s == d.s && Loop(special, r, d, fuel).0.count == d.count + fuel
    decreases fuel
  {
    if fuel > 0 {
      LoopUnfold(special, r, d, fuel);
      FixedPointLoops(special, r, Next(r, d), fuel - 1);
    }
  }

  /** In the aliquot sequence of a fixed point every term is that number. */
  lemma {:induction false} ChainOfFixedPoint(n: nat, ts: seq<nat>, k: nat)
    requires IsAliquotChain(n, ts) && AliquotSum(n) == n && k < |ts|
    ensures ts[k] == n
    decreases k
  {
    if k > 0 {
      ChainOfFixedPoint(n, ts, k - 1);
    }
  }

  /** A perfect starting number that is not special never lets the driver
      finish: for every step bound the run is still looping, with as many
      terms as steps, each equal to the starting number. */
  lemma PerfectNeverDecays(special: set<int>, n: nat, fuel: nat)
    requires n >= 2 && AliquotSum(n) == n && n !in special
    ensures var (e, o) := Sequence(special, n, fuel);
      o == OutOfFuel && e.count == fuel && forall t :: t in e.terms ==> t == n
  {
    var (e, o) := Sequence(special, n, fuel);
    if fuel > 0 {
      LoopUnfold(special, n, Start(), fuel);
      FixedPointLoops(special, n, Next(n, Start()), fuel - 1);
    }
    SequenceKeepsInv(special, n, fuel);
    forall t | t in e.terms ensures t == n {
      var k :| 0 <= k < |e.terms| && e.terms[k] == t;
      ChainOfFixedPoint(n, e.terms, k);
    }
  }

  /** A first term of 1 ends the run after one iteration, unless the start
      is special and the cap is 1 term (it is not). */
  lemma FirstTermOne(special: set<int>, r: nat, fuel: nat)
    requires r >= 1 && AliquotSum(r) == 1 && fuel >= 1
    ensures Sequence(special, r, fuel) == (Driver(1, false, 1, 1, [1]), Decayed)
  {
    LoopUnfold(special, r, Start(), fuel);
    assert Next(r, Start()) == Driver(1, false, 1, 1, [1]);
  }

  // ---------------------------------------------------------------------
  // Sequences from particular starting numbers; they end long before
  // TermCap terms, so they hold whatever the special set is

  /** A prime has a sequence of exactly one term, 1. */
  lemma PrimeSequence(special: set<int>, p: nat, fuel: nat)
    requires IsPrime(p) && fuel >= 1
    ensures Sequence(special, p, fuel) == (Driver(1, false, 1, 1, [1]), Decayed)
  {
    FacListOfPrime(p);
    FirstTermOne(special, p, fuel);
  }

  /** Starting from 1 the script prints one term, 1, because faclist(1) lists
      1 itself. */
  lemma SequenceFromOne(special: set<int>, fuel: nat)
    requires fuel >= 1
    ensures Sequence(special, 1, fuel) == (Driver(1, false, 1, 1, [1]), Decayed)
  {
    FacListOfOne();
    FirstTermOne(special, 1, fuel);
  }

  /** Starting from 8 the terms are 7 and 1: two terms, maximum 7. */
  lemma SequenceFromEight(special: set<int>, fuel: nat)
    requires fuel >= 2
    ensures Sequence(special, 8, fuel) == (Driver(1, false, 2, 7, [7, 1]), Decayed)
  {
    AliquotSumOf8();
    LoopTakes(special, 8, Start(), Driver(7, false, 1, 7, [7]), fuel);
    EightAfterSeven(special, fuel - 1);
  }

  /** From 8, after the term 7 comes 1. */
  lemma EightAfterSeven(special: set<int>, fuel: nat)
    requires fuel >= 1
    ensures Loop(special, 8, Driver(7, false, 1, 7, [7]), fuel) == (Driver(1, false, 2, 7, [7, 1]), Decayed)
  {
    AliquotSumOf7();
    LoopTakes(special, 8, Driver(7, false, 1, 7, [7]), Driver(1, false, 2, 7, [7, 1]), fuel);
  }

  /** 8 has the proper divisors 1, 2 and 4. */
  lemma AliquotSumOf8() ensures AliquotSum(8) == 7 {}

  /** 7 is prime. */
  lemma AliquotSumOf7() ensures AliquotSum(7) == 1 {
    assert IsPrime(7);
    FacListOfPrime(7);
  }

  /** The aliquot sums met on the way down from 12, one value at a time. */
  lemma AliquotSumOf12() ensures AliquotSum(12) == 16 {}
  lemma AliquotSumOf16() ensures AliquotSum(16) == 15 {}
  lemma AliquotSumOf15() ensures AliquotSum(15) == 9 {}
  lemma AliquotSumOf9() ensures AliquotSum(9) == 4 {}
  lemma AliquotSumOf4() ensures AliquotSum(4) == 3 {}
  lemma AliquotSumOf3() ensures AliquotSum(3) == 1 {}

  /** Starting from 12 the terms are 16, 15, 9, 4, 3, 1: six terms, maximum 16. */
  lemma SequenceFromTwelve(special: set<int>, fuel: nat)
    requires fuel >= 6
    ensures Sequence(special, 12, fuel) == (Driver(1, false, 6, 16, [16, 15, 9, 4, 3, 1]), Decayed)
  {
    AliquotSumOf12();
    LoopTakes(special, 12, Start(), Driver(16, false, 1, 16, [16]), fuel);
    TwelveAfter16(special, fuel - 1);
  }

  /** From 12, after the term 16 comes 15. */
  lemma TwelveAfter16(special: set<int>, fuel: nat)
    requires fuel >= 5
    ensures Loop(special, 12, Driver(16, false, 1, 16, [16]), fuel) == (Driver(1, false, 6, 16, [16, 15, 9, 4, 3, 1]), Decayed)
  {
    AliquotSumOf16();
    LoopTakes(special, 12, Driver(16, false, 1, 16, [16]), Driver(15, false, 2, 16, [16, 15]), fuel);
    TwelveAfter15(special, fuel - 1);
  }

  /** From 12, after the terms 16, 15 comes 9. */
  lemma TwelveAfter15(special: set<int>, fuel: nat)
    requires fuel >= 4
    ensures Loop(special, 12, Driver(15, false, 2, 16, [16, 15]), fuel) == (Driver(1, false, 6, 16, [16, 15, 9, 4, 3, 1]), Decayed)
  {
    AliquotSumOf15();
    LoopTakes(special, 12, Driver(15, false, 2, 16, [16, 15]), Driver(9, false, 3, 16, [16, 15, 9]), fuel);
    TwelveAfter9(special, fuel - 1);
  }

  /** From 12, after the terms 16, 15, 9 comes 4. */
  lemma TwelveAfter9(special: set<int>, fuel: nat)
    requires fuel >= 3
    ensures Loop(special, 12, Driver(9, false, 3, 16, [16, 15, 9]), fuel) == (Driver(1, false, 6, 16, [16, 15, 9, 4, 3, 1]), Decayed)
  {
    AliquotSumOf9();
    LoopTakes(special, 12, Driver(9, false, 3, 16, [16, 15, 9]), Driver(4, false, 4, 16, [16, 15, 9, 4]), fuel);
    TwelveAfter4(special, fuel - 1);
  }

  /** From 12, after the terms 16, 15, 9, 4 comes 3. */
  lemma TwelveAfter4(special: set<int>, fuel: nat)
    requires fuel >= 2
    ensures Loop(special, 12, Driver(4, false, 4, 16, [16, 15, 9, 4]), fuel) == (Driver(1, false, 6, 16, [16, 15, 9, 4, 3, 1]), Decayed)
  {
    AliquotSumOf4();
    LoopTakes(special, 12, Driver(4, false, 4, 16, [16, 15, 9, 4]), Driver(3, false, 5, 16, [16, 15, 9, 4, 3]), fuel);
    TwelveAfter3(special, fuel - 1);
  }

  /** From 12, after the terms 16, 15, 9, 4, 3 comes the last term, 1. */
  lemma TwelveAfter3(special: set<int>, fuel: nat)
    requires fuel >= 1
    ensures Loop(special, 12, Driver(3, false, 5, 16, [16, 15, 9, 4, 3]), fuel) == (Driver(1, false, 6, 16, [16, 15, 9, 4, 3, 1]), Decayed)
  {
    AliquotSumOf3();
    LoopTakes(special, 12, Driver(3, false, 5, 16, [16, 15, 9, 4, 3]), Driver(1, false, 6, 16, [16, 15, 9, 4, 3, 1]), fuel);
  }

  // ---------------------------------------------------------------------
  // The script's state and its loops

  /** The script's module-level state: the list faclist appends to, which
      the driver empties before every call, and the starting numbers whose
      sequences are cut off at TermCap terms. */
  class Script {
    var facs: seq<int>
    const special: set<int>

    constructor ()
      ensures facs == [] && special == Special
    {
      facs := [];
      special := Special;
    }

    /** faclist(N): trial division by 1..floor(sqrt N), appending each
        divisor and its cofactor to facs; returns facs itself. */
    method Faclist(N: nat) returns (r: seq<int>)
      modifies this
      ensures facs == old(facs) + FacList(N) && r == facs
    {
      var max := FloorSqrt(N);
      for i := 1 to max + 1
        invariant facs == old(facs) + FacUpTo(N, i - 1)
      {
        if N % i == 0 {
          facs := facs + [i];
          if N / i != N {
            var j := N / i;
            if i != j {
              facs := facs + [j];
            }
          }
        }
      }
      r := facs;
    }

    /** One term of the sequence: empties facs, then sum(faclist(N)). */
    method NextTerm(N: nat) returns (s: nat)
      requires N >= 1
      modifies this
      ensures s == AliquotSum(N) && facs == FacList(N)
    {
      facs := [];
      var f := Faclist(N);
      assert [] + FacList(N) == FacList(N);
      var total := Sum(f);
      assert total == AliquotSum(N);
      s := total;
    }

    /** The driver loop from the starting number R, stopped after fuel
        iterations if it has not ended by then. facs is left holding the
        factor list of the last number the loop factored. */
    method RunSequence(R: nat, fuel: nat)
      returns (S: nat, first: bool, count: nat, max: nat, terms: seq<nat>, outcome: Outcome)
      requires R >= 1
      modifies this
      ensures (Driver(S, first, count, max, terms), outcome) == Sequence(special, R, fuel)
      ensures terms == [] ==> facs == old(facs)
      ensures |terms| == 1 ==> facs == FacList(R)
      ensures |terms| >= 2 ==> facs == FacList(terms[|terms| - 2])
    {
      first, S, count, max, terms := true, 0, 0, 0, [];
      outcome := Decayed;
      ghost var result := Sequence(special, R, fuel);
      ghost var cur, rest := Start(), fuel;
      while S > 1 || first
        invariant cur == Driver(S, first, count, max, terms)
        invariant count <= fuel && rest == fuel - count
        invariant Loop(special, R, cur, rest) == result
        invariant S == (if terms == [] then 0 else terms[|terms| - 1])
        invariant terms != [] ==> S >= 1
        invariant terms == [] ==> facs == old(facs)
        invariant |terms| == 1 ==> facs == FacList(R)
        invariant |terms| >= 2 ==> facs == FacList(terms[|terms| - 2])
        decreases fuel - count
      {
        if count == fuel {
          outcome := OutOfFuel;
          break;
        }
        LoopUnfold(special, R, cur, rest);
        if S == 0 {
          S := NextTerm(R);
          first := false;
        } else {
          S := NextTerm(S);
        }
        if max < S {
          max := S;
        }
        count := count + 1;
        terms := terms + [S];
        assert Driver(S, first, count, max, terms) == Next(R, cur);
        cur, rest := Driver(S, first, count, max, terms), rest - 1;
        if R in special && count >= TermCap {
          outcome := Capped;
          break;
        }
      }
    }
  }
}

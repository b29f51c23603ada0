# Aliquot sequences, modelled in Dafny

`aliquot.py` follows the aliquot sequence of a starting number R. Each term is
the aliquot sum of the previous term, and the first term is the aliquot sum of
R. The aliquot sum is computed as `sum(faclist(N))`:

- `faclist` finds divisors by trial division with the candidates
  `1..floor(sqrt(N))`. It appends each divisor and its cofactor to the
  module-level list `facs`.
- `sum` adds up a list with an accumulator.

The driver loop runs while `S > 1 or first`. It tracks the number of terms
(`count`) and their maximum (`max`). For the six "special" starting numbers
{276, 552, 564, 660, 966, 996} it stops after 81 terms.

The project has two modules:

- `numbers.dfy` (module `Numbers`) holds the arithmetic vocabulary:
  - the exact integer square root `FloorSqrt`;
  - facts about exact division;
  - a brute-force reference list `ProperDivisors`;
  - the total of a list (`Total`), with the fact that reordering a list does
    not change its total.
- `aliquot.dfy` (module `Aliquot`) holds the script:
  - `FacList` is a specification of what `faclist` appends. It is proved to
    list exactly the proper divisors of N, each once, for N >= 2.
  - `AliquotSum` is defined as the total of that list.
  - `Sum` is the accumulator loop, proved against `Total`.
  - The driver loop is specified by `Next`, `Loop` and `Sequence` over a
    `Driver` value, which holds the loop variables S, first, count, max and
    the list of terms. A step bound `fuel` is added to the loop, and the
    `Outcome` says why a bounded run stopped.
  - The class `Script` carries the script's module-level state: the mutable
    list `facs` and the constant set `special`. Its methods `Faclist`,
    `NextTerm` and `RunSequence` are the imperative code. Each is proved
    against the functions above.

The code and the module docstring disagree about N = 1, and the model follows
the code. The docstring says that 1 has no proper factors, so its aliquot sum
would be 0. The code lists `faclist(1) == [1]`, because the candidate 1 is
appended before the test that skips N itself. The computed aliquot sum of 1 is
therefore 1 (`FacListOfOne`). For every N >= 2, the list is exactly the proper
divisors (`FacListIsProperDivisors`).

## Model

| member | source | states |
|---|---|---|
| Numbers.FloorSqrt | aliquot.py:48 | the bound of the trial division is the largest m with m*m <= N |
| Numbers.ProperDivisorsSpec | aliquot.py:20 | the reference list holds exactly the divisors of n below n, each once |
| Numbers.TotalPermutation | aliquot.py:67-69 | the total that the accumulator computes does not depend on the order of the list |
| Aliquot.AppendedMembers | aliquot.py:50-55 | the candidate k appends k if it divides N, and the proper divisor above the square root whose cofactor is k; it appends nothing else (not N, not a square root twice) |
| Aliquot.FacUpToMembers | aliquot.py:49-55 | after the candidates 1..k, facs holds exactly the proper divisors reached so far: those at or below the square root that are at most k, and those above it whose cofactor is at most k |
| Aliquot.FacUpToDistinct | aliquot.py:49-55 | the loop never appends the same value twice |
| Aliquot.FacListIsProperDivisors | aliquot.py:38-56 | for N >= 2, faclist(N) contains a value if and only if it is a proper divisor of N, and lists each one once |
| Aliquot.AliquotSumIsDivisorSum | aliquot.py:12 | for N >= 2, sum(faclist(N)) equals the total of all proper divisors of N |
| Aliquot.AliquotSum | aliquot.py:101 | the computed aliquot sum of any N >= 1 is at least 1 |
| Aliquot.FacListOfOne | aliquot.py:48-56 | faclist(1) is [1], so the computed aliquot sum of 1 is 1 |
| Aliquot.FacListOfPrime | aliquot.py:26 | faclist of a prime is [1], so its aliquot sum is 1 |
| Aliquot.PerfectNumbers | aliquot.py:32 | 6, 28 and 496 are their own aliquot sums |
| Aliquot.FacListOf6 | aliquot.py:32 | faclist(6) is [1, 2, 3], which totals 6 |
| Aliquot.FacListOf28 | aliquot.py:32 | faclist(28) is [1, 2, 14, 4, 7], which totals 28 |
| Aliquot.FacListOf496 | aliquot.py:32 | faclist(496) is [1, 2, 248, 4, 124, 8, 62, 16, 31], which totals 496 |
| Aliquot.Sum | aliquot.py:58-71 | the accumulator loop returns the total of the list |
| Aliquot.Loop | aliquot.py:98-115 | a bounded run adds one to count per iteration; it stops as Decayed only when `S > 1 or first` fails, as Capped only when R is special and count >= 81, and as OutOfFuel only while the loop would go on |
| Aliquot.NextKeepsInv | aliquot.py:99-109 | one iteration appends the aliquot sum of the previous term (of R at first), adds one to count, keeps max the largest term, and clears first |
| Aliquot.LoopKeepsInv | aliquot.py:98-115 | every iteration keeps the invariant and only appends terms |
| Aliquot.SequenceKeepsInv | aliquot.py:91-115 | after any run, the terms are the aliquot sequence of R, count is their number, max their largest, and S the last term |
| Aliquot.SequenceEndsAtOne | aliquot.py:98-104 | the first iteration always runs and produces the aliquot sum of R; a run that ends at the loop test ends on the term 1 |
| Aliquot.LoopWithinCap | aliquot.py:114-115 | from a special R below the cap, the run never passes 81 terms and is capped exactly at 81 |
| Aliquot.SpecialCap | aliquot.py:114-115 | a run from a special R has at most 81 terms; the early break fires if and only if R is special and count reaches exactly 81 |
| Aliquot.FixedPointLoops | aliquot.py:98-104 | once S is a fixed point above 1 of the aliquot sum and R is not special, every further iteration repeats S and the loop never ends |
| Aliquot.ChainOfFixedPoint | aliquot.py:29 | every term of the aliquot sequence of a fixed point is that number |
| Aliquot.PerfectNeverDecays | aliquot.py:29-33 | a perfect, non-special R never lets the loop stop: after any number of iterations it is still running, and every term equals R |
| Aliquot.FirstTermOne | aliquot.py:98-104 | when the aliquot sum of R is 1, the run has exactly one term, 1 |
| Aliquot.PrimeSequence | aliquot.py:77 | the sequence of a prime has length 1: the single term 1, maximum 1 |
| Aliquot.SequenceFromOne | aliquot.py:91-104 | starting from 1, the script produces one term, 1 |
| Aliquot.SequenceFromEight | aliquot.py:78 | starting from 8, the terms are 7 and 1: count 2, maximum 7 |
| Aliquot.SequenceFromTwelve | aliquot.py:98-109 | starting from 12, the terms are 16, 15, 9, 4, 3 and 1: count 6, maximum 16 |
| Aliquot.Script.constructor | aliquot.py:97-99 | facs starts empty, and the special set is {276, 552, 564, 660, 966, 996} |
| Aliquot.Script.Faclist | aliquot.py:38-56 | faclist appends FacList(N) to facs and returns facs |
| Aliquot.Script.NextTerm | aliquot.py:99-104 | emptying facs and then summing faclist(N) yields the aliquot sum of N; facs is left holding faclist(N) |
| Aliquot.Script.RunSequence | aliquot.py:91-115 | the driver loop ends with S, first, count, max, the terms and the outcome given by Sequence for the script's special set; facs is left holding the factor list of the last number factored |

## Left out

- Reading R: the input at line 91 becomes the parameter R. The model requires R >= 1, because the script crashes otherwise. For R < 0, `math.sqrt` fails. For R = 0, the first term is 0 and `math.log10(0)` at line 113 fails.
- Printing and flushing: the formatted terms (lines 106 and 110-111), the summary line (117) and `sys.stdout.flush` (122) are output only.
- `ypoints` and the plot: the script stores `math.log10(S)`, a floating-point value, and plots it with numpy and matplotlib (lines 113 and 118-121). The model keeps the terms themselves in `terms`, in the same order.
- `math.floor(math.sqrt(N))`: the model uses the exact integer square root. It does not model the rounding of floating-point square roots for very large N.
- Aliquot.Loop: the script's `while` loop is unbounded. The model bounds it with `fuel`, and `OutOfFuel` says the script would still be looping. Perfect numbers and cycles never stop in the script, and `PerfectNeverDecays` states this for every bound.
- Aliquot.SpecialCap: it does not compute the 81 terms of the special starting numbers. Those terms grow too large to evaluate, so only the general cap is proved.
- Aliquot.Script.Faclist: in the script, `faclist` returns the list object `facs` itself, an alias. The model returns a copy of its value, equal to `facs` at return. No caller relies on the alias, because `sum` only reads the list.
- Python integers are unbounded, and so are Dafny's `int` and `nat`: there is no overflow to model.

/**
 * The seeded random number generator of the game (src/game/rng.js): the 32-bit
 * FNV-1a seed hash, the mulberry32 generator, and the draws derived from it.
 *
 * Everything that consumes randomness is written against `Oracle`, an infinite
 * sequence of draws in [0, 1) with a read position. The mulberry32 stream of a
 * seed is one such oracle (`MulberryOracle`), so a property proved for every
 * oracle holds for every seed.
 */
module Rng {

  const TwoPow32: int := 0x1_0000_0000

  /** FNV-1a 32-bit offset basis (2166136261) and prime (16777619). */
  const FnvOffsetBasis: bv32 := 0x811C_9DC5
  const FnvPrime: bv32 := 0x0100_0193

  /** The mulberry32 state increment. */
  const MulberryIncrement: bv32 := 0x6D2B_79F5

  /** A value returned by the generator: a real in [0, 1). */
  type UnitDraw = r: real | 0.0 <= r < 1.0

  // ---------------------------------------------------------------------------
  // hashSeed

  /**
   * The seed accepted by hashSeed: a finite JavaScript number, a string given as
   * its UTF-16 code units (what `charCodeAt` reads), or null/undefined.
   */
  datatype SeedInput = FiniteNumber(value: real) | Text(units: seq<CodeUnit>) | Nullish

  /** A UTF-16 code unit. */
  type CodeUnit = u: int | 0 <= u < 0x1_0000

  /** One FNV-1a round; bv32 multiplication wraps exactly like `Math.imul`. */
  function FnvStep(hash: bv32, unit: CodeUnit): bv32 {
    (hash ^ (unit as bv32)) * FnvPrime
  }

  /** FNV-1a over a sequence of code units, consumed front to back. */
  function FnvFold(hash: bv32, units: seq<CodeUnit>): bv32
    decreases |units|
  {
    if |units| == 0 then hash else FnvFold(FnvStep(hash, units[0]), units[1..])
  }

  /** Consuming one more code unit is one more round on the previous hash. */
  lemma {:induction false} FnvFoldAppend(hash: bv32, units: seq<CodeUnit>, unit: CodeUnit)
    ensures FnvFold(hash, units + [unit]) == FnvStep(FnvFold(hash, units), unit)
    decreases |units|
  {
    if |units| > 0 {
      assert (units + [unit])[1..] == units[1..] + [unit];
      FnvFoldAppend(FnvStep(hash, units[0]), units[1..], unit);
    }
  }

  /** The loop of hashSeed over a string, as written in the source. */
  method HashText(units: seq<CodeUnit>) returns (hash: bv32)
    ensures hash == FnvFold(FnvOffsetBasis, units)
  {
    hash := FnvOffsetBasis;
    var i := 0;
    while i < |units|
      invariant 0 <= i <= |units|
      invariant hash == FnvFold(FnvOffsetBasis, units[..i])
    {
      FnvFoldAppend(FnvOffsetBasis, units[..i], units[i]);
      assert units[..i + 1] == units[..i] + [units[i]];
      hash := FnvStep(hash, units[i]);
      i := i + 1;
    }
    assert units[..i] == units;
  }

  /** JavaScript's `x >>> 0` on a finite number: truncate toward zero, reduce modulo 2^32. */
  function ToUint32(x: real): (n: nat)
    ensures n < TwoPow32
    ensures x == x.Floor as real ==> (n - x.Floor) % TwoPow32 == 0
  {
    var t := if x >= 0.0 then x.Floor else -((-x).Floor);
    t % TwoPow32
  }

  /** hashSeed: numbers are reduced to 32 bits, anything else is hashed as a string. */
  function HashSeed(input: SeedInput): (n: nat)
    ensures n < TwoPow32
  {
    match input
    case FiniteNumber(x) => ToUint32(x)
    case Text(units) => FnvFold(FnvOffsetBasis, units) as nat
    case Nullish => FnvOffsetBasis as nat
  }

  lemma HashSeedOfEmptyText()
    ensures HashSeed(Text([])) == 2166136261
    ensures HashSeed(Nullish) == HashSeed(Text([]))
  {
  }

  /** On an integer, hashSeed is the integer modulo 2^32 (so -1 maps to 2^32 - 1). */
  lemma HashSeedOfInteger(n: int)
    ensures HashSeed(FiniteNumber(n as real)) == n % TwoPow32
  {
    var x := n as real;
    assert x.Floor == n;
    if n < 0 {
      assert (-x).Floor == -n;
    }
  }

  /**
   * The UTF-16 code units of a string, as `charCodeAt` sees them: one unit for a
   * character of the basic plane, a surrogate pair for any other.
   */
  function CodeUnits(s: string): (r: seq<CodeUnit>)
    ensures (forall i :: 0 <= i < |s| ==> (s[i] as int) < 0x1_0000) ==>
              |r| == |s| && forall i :: 0 <= i < |s| ==> r[i] == s[i] as int
    ensures |s| <= |r| <= 2 * |s|
    decreases |s|
  {
    if |s| == 0 then []
    else
      var c := s[0] as int;
      var head: seq<CodeUnit> :=
        if c < 0x1_0000 then [c]
        else
          var v := c - 0x1_0000;
          [0xD800 + v / 0x400, 0xDC00 + v % 0x400];
      head + CodeUnits(s[1..])
  }

  // ---------------------------------------------------------------------------
  // mulberry32

  /** The output scrambling of mulberry32 applied to an advanced state. */
  function Mix(state: bv32): bv32 {
    var t1 := (state ^ (state >> 15)) * (state | 1);
    var t2 := t1 ^ (t1 + (t1 ^ (t1 >> 7)) * (t1 | 61));
    t2 ^ (t2 >> 14)
  }

  datatype Mulberry = Mulberry(state: bv32)

  /** createRng: the state is the seed taken modulo 2^32. */
  function CreateRng(seed: int): Mulberry {
    Mulberry((seed % TwoPow32) as bv32)
  }

  /** The state update of one call of the generator. */
  function NextState(g: Mulberry): (r: Mulberry)
    ensures r.state == g.state + MulberryIncrement
  {
    Mulberry(g.state + MulberryIncrement)
  }

  /**
   * One call of the generator: advance the state and scramble it. The 32-bit
   * result k stands for the returned value k / 2^32 (see Scale).
   */
  function Next(g: Mulberry): (r: (Mulberry, bv32)) {
    var s := NextState(g);
    (s, Mix(s.state))
  }

  /** The generator after `k` calls. */
  function Advance(g: Mulberry, k: nat): Mulberry
    decreases k
  {
    if k == 0 then g else Advance(NextState(g), k - 1)
  }

  /** Making a + b calls is making a calls and then b more. */
  lemma {:induction false} AdvanceAdditive(g: Mulberry, a: nat, b: nat)
    ensures Advance(Advance(g, a), b) == Advance(g, a + b)
    decreases a
  {
    if a > 0 {
      AdvanceAdditive(NextState(g), a - 1, b);
    }
  }

  /** The result of the (i+1)-th call, after i earlier calls. */
  function NthDraw(g: Mulberry, i: nat): bv32 {
    Next(Advance(g, i)).1
  }

  /** The value `rng()` returns for a 32-bit result k: k / 2^32. */
  function Scale(k: bv32): (r: UnitDraw)
    ensures r * 4294967296.0 == (k as int) as real
  {
    (k as int) as real / 4294967296.0
  }

  // ---------------------------------------------------------------------------
  // The oracle and the derived draws

  /** An infinite sequence of draws in [0, 1) together with the next read position. */
  datatype Oracle = Oracle(draw: nat -> UnitDraw, pos: nat)

  /** The oracle whose draws are the mulberry32 stream of `seed`. */
  function MulberryOracle(seed: int): (o: Oracle)
    ensures o.pos == 0
    ensures forall i: nat :: o.draw(i) == Scale(NthDraw(CreateRng(seed), i))
  {
    var g := CreateRng(seed);
    Oracle(i => Scale(NthDraw(g, i)), 0)
  }

  /** `rng()`: read one draw. */
  function Draw(o: Oracle): (r: (Oracle, UnitDraw))
    ensures r.0.draw == o.draw && r.0.pos == o.pos + 1
    ensures r.1 == o.draw(o.pos)
  {
    (o.(pos := o.pos + 1), o.draw(o.pos))
  }

  /** A draw scaled by a non-negative span stays in [0, span], below it when positive. */
  lemma ScaledDrawBelow(d: UnitDraw, span: real)
    requires span >= 0.0
    ensures 0.0 <= d * span <= span
    ensures span > 0.0 ==> d * span < span
  {
    if span > 0.0 {
      assert (1.0 - d) * span > 0.0;
    }
  }

  /** A draw scaled by a positive integer and floored lands in [0, n). */
  lemma ScaledDrawBounds(d: UnitDraw, n: int)
    requires n >= 1
    ensures 0 <= (d * n as real).Floor < n
  {
    ScaledDrawBelow(d, n as real);
  }

  /** randomInt(min, max): floor(draw * (max - min + 1)) + min. */
  function RandomInt(o: Oracle, min: int, max: int): (r: (Oracle, int))
    ensures r.0.draw == o.draw && r.0.pos == o.pos + 1
    ensures min <= max ==> min <= r.1 <= max
  {
    var (o1, d) := Draw(o);
    var n := max - min + 1;
    if n >= 1 then
      ScaledDrawBounds(d, n);
      (o1, (d * n as real).Floor + min)
    else
      (o1, (d * n as real).Floor + min)
  }

  /** randomRange(min, max): draw * (max - min) + min. */
  function RandomRange(o: Oracle, min: real, max: real): (r: (Oracle, real))
    ensures r.0.draw == o.draw && r.0.pos == o.pos + 1
    ensures min < max ==> min <= r.1 < max
    ensures min == max ==> r.1 == min
  {
    var (o1, d) := Draw(o);
    var span := max - min;
    if span >= 0.0 then
      ScaledDrawBelow(d, span);
      (o1, d * span + min)
    else
      (o1, d * span + min)
  }

  /** The partner index of position `i` in one Fisher-Yates step. */
  function SwapIndex(d: UnitDraw, i: nat): (j: nat)
    ensures j <= i
  {
    ScaledDrawBounds(d, i + 1);
    (d * (i + 1) as real).Floor
  }

  /** Exchanging two positions permutes a sequence. */
  lemma SwapPermutes<T>(a: seq<T>, i: nat, j: nat)
    requires i < |a| && j < |a|
    ensures multiset(a[i := a[j]][j := a[i]]) == multiset(a)
  {
    if i != j {
      var b := a[i := a[j]];
      assert multiset(b) == multiset(a) - multiset{a[i]} + multiset{a[j]};
      assert multiset(b[j := a[i]]) == multiset(b) - multiset{b[j]} + multiset{a[i]};
    }
  }

  /** Fisher-Yates from position `i` down to 1, one draw per position. */
  function ShuffleDown<T>(o: Oracle, a: seq<T>, i: int): (r: (Oracle, seq<T>))
    requires i < |a|
    ensures |r.1| == |a| && multiset(r.1) == multiset(a)
    ensures r.0.draw == o.draw && r.0.pos == o.pos + (if i > 0 then i else 0)
    decreases i
  {
    if i <= 0 then (o, a)
    else
      var (o1, d) := Draw(o);
      var j := SwapIndex(d, i);
      SwapPermutes(a, i, j);
      ShuffleDown(o1, a[i := a[j]][j := a[i]], i - 1)
  }

  /** shuffle: a permutation of the input, drawing exactly length - 1 times. */
  function Shuffle<T>(o: Oracle, a: seq<T>): (r: (Oracle, seq<T>))
    ensures |r.1| == |a| && multiset(r.1) == multiset(a)
    ensures r.0.draw == o.draw && r.0.pos == o.pos + (if |a| > 0 then |a| - 1 else 0)
  {
    ShuffleDown(o, a, |a| - 1)
  }

  /** The sum of a sequence of weights, as `reduce` computes it. */
  function Sum(w: seq<real>): real
    decreases |w|
  {
    if |w| == 0 then 0.0 else w[0] + Sum(w[1..])
  }

  /** The running sum of options k..j inclusive. */
  function RunningSum(w: seq<real>, k: nat, j: nat): real
    requires k <= j < |w|
  {
    Sum(w[k..j + 1])
  }

  /** A running sum from k is the weight at k plus the running sum from k + 1. */
  lemma RunningSumSplit(w: seq<real>, k: nat)
    requires k + 1 < |w|
    ensures forall j :: k < j < |w| ==> RunningSum(w, k, j) == w[k] + RunningSum(w, k + 1, j)
  {
    forall j | k < j < |w|
      ensures RunningSum(w, k, j) == w[k] + RunningSum(w, k + 1, j)
    {
      assert w[k..j + 1] == [w[k]] + w[k + 1..j + 1];
    }
  }

  lemma {:induction false} SumAppend(w: seq<real>, x: real)
    ensures Sum(w + [x]) == Sum(w) + x
    decreases |w|
  {
    if |w| > 0 {
      assert (w + [x])[1..] == w[1..] + [x];
      SumAppend(w[1..], x);
    }
  }

  /**
   * The scan of weightedChoice from position `k`, with `left` what remains of the
   * roll: the first option whose weight exhausts it, or the last option.
   */
  function PickFrom(w: seq<real>, k: nat, left: real): (r: nat)
    requires k < |w|
    ensures k <= r < |w|
    ensures forall j :: k <= j < r ==> RunningSum(w, k, j) < left
    ensures r == |w| - 1 || RunningSum(w, k, r) >= left
    decreases |w| - k
  {
    if left - w[k] <= 0.0 then
      assert w[k..k + 1] == [w[k]] && Sum([w[k]]) == w[k];
      k
    else if k == |w| - 1 then
      k
    else
      var r := PickFrom(w, k + 1, left - w[k]);
      RunningSumSplit(w, k);
      assert w[k..k + 1] == [w[k]] && Sum([w[k]]) == w[k];
      r
  }

  /**
   * weightedChoice: roll = draw * total weight; the chosen option is the first
   * whose running sum reaches the roll (the last one if none does).
   */
  function WeightedChoice(o: Oracle, w: seq<real>): (r: (Oracle, nat))
    requires |w| > 0
    ensures r.0.draw == o.draw && r.0.pos == o.pos + 1
    ensures r.1 < |w|
    ensures var roll := o.draw(o.pos) * Sum(w);
            && (forall j :: 0 <= j < r.1 ==> RunningSum(w, 0, j) < roll)
            && (r.1 == |w| - 1 || RunningSum(w, 0, r.1) >= roll)
  {
    var (o1, d) := Draw(o);
    (o1, PickFrom(w, 0, d * Sum(w)))
  }
}

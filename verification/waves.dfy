/**
 * Waves in frontend/src/game/game.js: the level/wave numbering of the global
 * wave index (getWaveIndex, getLevelWave), the token list of a wave
 * definition (expandWave), the boss (buildBoss) and the spawn queue that
 * startWave assembles from them.
 */
module Waves {
  import opened Wrappers
  import opened Rng
  import JsNumber

  /** getWaveIndex: three waves per level, both counted from 1. */
  function WaveIndex(level: int, wave: int): int {
    (level - 1) * 3 + (wave - 1)
  }

  /** getLevelWave: Math.floor(index / 3) + 1 and (index % 3) + 1, with JavaScript's %. */
  function LevelWave(index: int): (lw: (int, int)) {
    (index / 3 + 1, JsNumber.Rem(index, 3) + 1)
  }

  /** Every index the game reaches names wave 1, 2 or 3 of a level, and getWaveIndex inverts it. */
  lemma LevelWaveInverse(index: int)
    requires index >= 0
    ensures LevelWave(index).0 >= 1 && 1 <= LevelWave(index).1 <= 3
    ensures WaveIndex(LevelWave(index).0, LevelWave(index).1) == index
  {
  }

  /** getLevelWave inverts getWaveIndex on real levels and waves. */
  lemma WaveIndexInverse(level: int, wave: int)
    requires level >= 1 && 1 <= wave <= 3
    ensures LevelWave(WaveIndex(level, wave)) == (level, wave)
  {
    var i := WaveIndex(level, wave);
    assert i == 3 * (level - 1) + (wave - 1);
    assert i / 3 == level - 1;
  }

  /** Below zero the pair breaks down: index -1 names level 0, wave 0. */
  lemma NegativeIndexExample()
    ensures LevelWave(-1) == (0, 0)
    ensures WaveIndex(0, 0) == -4
  {
  }

  /** One line of a wave definition: `count` monsters of one type. */
  datatype WaveEntry = WaveEntry(kind: string, count: int)

  function Repeat(kind: string, n: int): (r: seq<string>)
    ensures |r| == (if n > 0 then n else 0)
    ensures forall i :: 0 <= i < |r| ==> r[i] == kind
    decreases if n > 0 then n else 0
  {
    if n <= 0 then [] else Repeat(kind, n - 1) + [kind]
  }

  /** expandWave: every entry contributes `count` tokens of its type, in order. */
  function ExpandWave(definition: seq<WaveEntry>): (r: seq<string>)
    decreases |definition|
  {
    if |definition| == 0 then []
    else
      var last := definition[|definition| - 1];
      ExpandWave(definition[..|definition| - 1]) + Repeat(last.kind, last.count)
  }

  /** The number of `kind` monsters a definition asks for. */
  function CountOf(definition: seq<WaveEntry>, kind: string): nat {
    if |definition| == 0 then 0
    else
      var e := definition[|definition| - 1];
      CountOf(definition[..|definition| - 1], kind) + (if e.kind == kind && e.count > 0 then e.count else 0)
  }

  function TotalCount(definition: seq<WaveEntry>): nat {
    if |definition| == 0 then 0
    else
      var e := definition[|definition| - 1];
      TotalCount(definition[..|definition| - 1]) + (if e.count > 0 then e.count else 0)
  }

  lemma {:induction false} RepeatMultiset(kind: string, n: int, k: string)
    ensures multiset(Repeat(kind, n))[k] == (if kind == k && n > 0 then n else 0)
    decreases if n > 0 then n else 0
  {
    if n > 0 {
      RepeatMultiset(kind, n - 1, k);
      assert multiset(Repeat(kind, n)) == multiset(Repeat(kind, n - 1)) + multiset{kind};
    }
  }

  /** The tokens are exactly the requested monsters: per type, and in total. */
  lemma {:induction false} ExpandWaveCounts(definition: seq<WaveEntry>, kind: string)
    ensures multiset(ExpandWave(definition))[kind] == CountOf(definition, kind)
    ensures |ExpandWave(definition)| == TotalCount(definition)
  {
    if |definition| > 0 {
      var init := definition[..|definition| - 1];
      var e := definition[|definition| - 1];
      ExpandWaveCounts(init, kind);
      RepeatMultiset(e.kind, e.count, kind);
      assert multiset(ExpandWave(definition)) == multiset(ExpandWave(init)) + multiset(Repeat(e.kind, e.count));
    }
  }

  /** The types a definition names. */
  function KindSet(definition: seq<WaveEntry>): set<string> {
    set i | 0 <= i < |definition| :: definition[i].kind
  }

  predicate DistinctKinds(s: seq<string>) {
    forall i, j :: 0 <= i < j < |s| ==> s[i] != s[j]
  }

  /** The index of the first entry naming the type. */
  function FirstAt(definition: seq<WaveEntry>, kind: string): (p: nat)
    requires kind in KindSet(definition)
    ensures p < |definition| && definition[p].kind == kind
    ensures forall i :: 0 <= i < p ==> definition[i].kind != kind
  {
    if definition[0].kind == kind then 0
    else
      assert kind in KindSet(definition[1..]) by {
        var i :| 0 <= i < |definition| && definition[i].kind == kind;
        assert definition[1..][i - 1] == definition[i];
      }
      1 + FirstAt(definition[1..], kind)
  }

  /** Appending an entry does not move the first appearance of a type already named. */
  lemma FirstAtOfPrefix(definition: seq<WaveEntry>, kind: string)
    requires |definition| > 0
    requires kind in KindSet(definition[..|definition| - 1])
    ensures kind in KindSet(definition)
    ensures FirstAt(definition, kind) == FirstAt(definition[..|definition| - 1], kind)
  {
    var init := definition[..|definition| - 1];
    var a := FirstAt(init, kind);
    assert definition[a] == init[a];
    assert kind in KindSet(definition);
  }

  /** The types of a definition are those of all but its last entry, plus the last entry's. */
  lemma KindSetOfPrefix(definition: seq<WaveEntry>)
    requires |definition| > 0
    ensures forall x :: x in KindSet(definition) <==>
                        x in KindSet(definition[..|definition| - 1]) || x == definition[|definition| - 1].kind
    ensures forall x :: x in KindSet(definition[..|definition| - 1]) ==>
                        FirstAt(definition, x) == FirstAt(definition[..|definition| - 1], x)
  {
    var init := definition[..|definition| - 1];
    var k := definition[|definition| - 1].kind;
    forall x | x in KindSet(definition) ensures x in KindSet(init) || x == k {
      var i :| 0 <= i < |definition| && definition[i].kind == x;
      if i < |definition| - 1 {
        assert init[i] == definition[i];
      }
    }
    forall x | x in KindSet(init)
      ensures x in KindSet(definition) && FirstAt(definition, x) == FirstAt(init, x)
    {
      FirstAtOfPrefix(definition, x);
    }
  }

  /** Array.from(new Set(types)): each type once, in order of first appearance. */
  function UniqueKinds(definition: seq<WaveEntry>): (r: seq<string>)
    ensures DistinctKinds(r)
    ensures forall k :: k in r <==> k in KindSet(definition)
    ensures forall i, j :: 0 <= i < j < |r| ==> FirstAt(definition, r[i]) < FirstAt(definition, r[j])
  {
    if |definition| == 0 then []
    else
      var init := definition[..|definition| - 1];
      var u := UniqueKinds(init);
      var k := definition[|definition| - 1].kind;
      KindSetOfPrefix(definition);
      if k in u then u
      else
        assert FirstAt(definition, k) == |definition| - 1;
        u + [k]
  }

  /** A spawn-queue entry: a plain token, or the boss with its hp/gold multiplier. */
  datatype SpawnEntry = Plain(kind: string) | Boss(kind: string, multiplier: real)

  /** Number(x.toFixed(2)) on an exact real: the nearest hundredth, halves up. */
  function Hundredths(x: real): real {
    (x * 100.0 + 0.5).Floor as real / 100.0
  }

  lemma HundredthsInRange(x: real)
    requires 2.0 <= x < 5.0
    ensures 2.0 <= Hundredths(x) <= 5.0
  {
    var n := (x * 100.0 + 0.5).Floor;
    assert 200 <= n <= 500;
  }

  /** buildBoss: a type of the definition drawn uniformly, with a multiplier in [2, 5]. */
  function BuildBoss(o: Oracle, definition: seq<WaveEntry>): (r: (Oracle, Option<SpawnEntry>))
    ensures r.0.draw == o.draw
    ensures r.1.None? <==> |definition| == 0
    ensures r.1.None? ==> r.0 == o
    ensures r.1.Some? ==> r.0.pos == o.pos + 2
    ensures r.1.Some? ==> r.1.value.Boss? && r.1.value.kind in KindSet(definition)
                          && 2.0 <= r.1.value.multiplier <= 5.0
  {
    if |definition| == 0 then (o, None)
    else
      assert definition[0].kind in KindSet(definition);
      var types := UniqueKinds(definition);
      var (o1, i) := RandomInt(o, 0, |types| - 1);
      var (o2, m) := RandomRange(o1, 2.0, 5.0);
      HundredthsInRange(m);
      (o2, Some(Boss(types[i], Hundredths(m))))
  }

  function Plains(kinds: seq<string>): (r: seq<SpawnEntry>)
    ensures |r| == |kinds|
    ensures forall i :: 0 <= i < |r| ==> r[i] == Plain(kinds[i])
  {
    if |kinds| == 0 then [] else Plains(kinds[..|kinds| - 1]) + [Plain(kinds[|kinds| - 1])]
  }

  /** The earliest slot the boss may take: 35% into the queue, rounded down. */
  function MinBossIndex(n: nat): (m: nat)
    ensures m <= n
  {
    (n as real * 0.35).Floor
  }

  /** The boss of queue `q` sits at `at`, inside its window, and the rest is the shuffled token list. */
  predicate BossAt(q: seq<SpawnEntry>, at: int, definition: seq<WaveEntry>) {
    && 0 <= at < |q|
    && MinBossIndex(|q| - 1) <= at
    && q[at].Boss? && q[at].kind in KindSet(definition) && 2.0 <= q[at].multiplier <= 5.0
    && multiset(q[..at] + q[at + 1..]) == multiset(Plains(ExpandWave(definition)))
  }

  /** Every boss entry of a queue carries a multiplier in [2, 5]. */
  predicate WellScaled(q: seq<SpawnEntry>) {
    forall i :: 0 <= i < |q| ==> q[i].Boss? ==> 2.0 <= q[i].multiplier <= 5.0
  }

  /** A permutation of plain tokens holds plain tokens only. */
  lemma ShuffledPlain(shuffled: seq<SpawnEntry>, kinds: seq<string>)
    requires multiset(shuffled) == multiset(Plains(kinds))
    ensures forall i :: 0 <= i < |shuffled| ==> shuffled[i].Plain?
    ensures WellScaled(shuffled)
  {
    forall i | 0 <= i < |shuffled| ensures shuffled[i].Plain? {
      assert shuffled[i] in multiset(Plains(kinds));
    }
  }

  /** Splicing a boss with a multiplier in [2, 5] into a well-scaled queue keeps it well scaled. */
  lemma SpliceScaled(shuffled: seq<SpawnEntry>, at: int, boss: SpawnEntry)
    requires 0 <= at <= |shuffled| && WellScaled(shuffled)
    requires boss.Boss? ==> 2.0 <= boss.multiplier <= 5.0
    ensures WellScaled(shuffled[..at] + [boss] + shuffled[at..])
  {
    var q := shuffled[..at] + [boss] + shuffled[at..];
    forall i | 0 <= i < |q| && q[i].Boss? ensures 2.0 <= q[i].multiplier <= 5.0 {
      if i < at {
        assert q[i] == shuffled[i];
      } else if i > at {
        assert q[i] == shuffled[i - 1];
      }
    }
  }

  /** Splicing the boss into the shuffled tokens at a slot of its window places it as BossAt says. */
  lemma SpliceBoss(shuffled: seq<SpawnEntry>, at: int, boss: SpawnEntry, definition: seq<WaveEntry>)
    requires multiset(shuffled) == multiset(Plains(ExpandWave(definition)))
    requires MinBossIndex(|shuffled|) <= at <= |shuffled|
    requires boss.Boss? && boss.kind in KindSet(definition) && 2.0 <= boss.multiplier <= 5.0
    ensures BossAt(shuffled[..at] + [boss] + shuffled[at..], at, definition)
  {
    var q := shuffled[..at] + [boss] + shuffled[at..];
    assert q[at] == boss;
    assert q[..at] + q[at + 1..] == shuffled;
  }

  /**
   * The queue startWave builds: the shuffled tokens, then, when the
   * definition names any type, a boss spliced in at a drawn index in
   * [floor(0.35 n), n].
   */
  function BuildQueue(o: Oracle, definition: seq<WaveEntry>): (r: (Oracle, seq<SpawnEntry>))
    ensures r.0.draw == o.draw && r.0.pos >= o.pos
    ensures |definition| == 0 ==> r.1 == []
    ensures |definition| > 0 ==> |r.1| == TotalCount(definition) + 1
    ensures |definition| > 0 ==> exists at :: BossAt(r.1, at, definition)
    ensures WellScaled(r.1)
  {
    var tokens := Plains(ExpandWave(definition));
    var (o1, shuffled) := Shuffle(o, tokens);
    ExpandWaveCounts(definition, "");
    ShuffledPlain(shuffled, ExpandWave(definition));
    var (o2, boss) := BuildBoss(o1, definition);
    if boss.None? then
      (o2, shuffled)
    else
      var n := |shuffled|;
      var (o3, at) := RandomInt(o2, MinBossIndex(n), n);
      SpliceBoss(shuffled, at, boss.value, definition);
      SpliceScaled(shuffled, at, boss.value);
      (o3, shuffled[..at] + [boss.value] + shuffled[at..])
  }
}

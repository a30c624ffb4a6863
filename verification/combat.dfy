/**
 * One frame of combat in frontend/src/game/game.js: applyDamage,
 * updateMonsters (slow expiry, movement along the corridor, leaks) and
 * updateTowers (cooldowns, range, target choice, arrow/ice/bomb hits),
 * and clearDead. Effects are presentation and are not kept.
 */
module Combat {
  import opened Wrappers
  import opened Corridor
  import opened GameState
  import Towers
  import JsNumber

  // ---------------------------------------------------------------------------
  // Counting over the monster list

  /** The hit points left on the field, dead monsters included. */
  function SumHp(ms: seq<Monster>): real
    decreases |ms|
  {
    if |ms| == 0 then 0.0 else SumHp(ms[..|ms| - 1]) + ms[|ms| - 1].hp
  }

  /** The number of monsters with hit points left. */
  function Alive(ms: seq<Monster>): (n: nat)
    ensures n <= |ms|
    decreases |ms|
  {
    if |ms| == 0 then 0 else Alive(ms[..|ms| - 1]) + (if ms[|ms| - 1].hp > 0.0 then 1 else 0)
  }

  /** Replacing one monster changes the hit-point total by the difference. */
  lemma {:induction false} SumHpUpdate(ms: seq<Monster>, i: int, m: Monster)
    requires 0 <= i < |ms|
    ensures SumHp(ms[i := m]) == SumHp(ms) - ms[i].hp + m.hp
    decreases |ms|
  {
    var n := |ms|;
    if i < n - 1 {
      assert ms[i := m][..n - 1] == ms[..n - 1][i := m];
      SumHpUpdate(ms[..n - 1], i, m);
    } else {
      assert ms[i := m][..n - 1] == ms[..n - 1];
    }
  }

  /** Replacing one monster changes the living count by what the replacement does to it. */
  lemma {:induction false} AliveUpdate(ms: seq<Monster>, i: int, m: Monster)
    requires 0 <= i < |ms|
    ensures Alive(ms[i := m]) + (if ms[i].hp > 0.0 then 1 else 0) == Alive(ms) + (if m.hp > 0.0 then 1 else 0)
    decreases |ms|
  {
    var n := |ms|;
    if i < n - 1 {
      assert ms[i := m][..n - 1] == ms[..n - 1][i := m];
      AliveUpdate(ms[..n - 1], i, m);
    } else {
      assert ms[i := m][..n - 1] == ms[..n - 1];
    }
  }

  // ---------------------------------------------------------------------------
  // applyDamage

  /**
   * The part of the run a hit can touch: the monsters, the kill count and
   * score, the damage total and the money.
   */
  datatype Battle = Battle(monsters: seq<Monster>, killed: int, killScore: int, totalDamage: real, money: int)

  /** What applyDamage does to the monster itself: a living one loses min(hp, amount). */
  function Hit(m: Monster, amount: real): (r: Monster)
    ensures r == m.(hp := r.hp)
    ensures m.hp <= 0.0 ==> r.hp == m.hp
    ensures m.hp > 0.0 ==> r.hp == JsNumber.MaxReal(m.hp - amount, 0.0)
  {
    if m.hp <= 0.0 then m else m.(hp := m.hp - JsNumber.MinReal(m.hp, amount))
  }

  /**
   * applyDamage: a dead monster takes nothing; a living one loses
   * min(hp, amount), which is added to the damage total, and a kill pays its
   * points and gold once.
   */
  function ApplyDamage(b: Battle, i: int, amount: real): (r: Battle)
    requires 0 <= i < |b.monsters|
    ensures b.monsters[i].hp <= 0.0 ==> r == b
    ensures |r.monsters| == |b.monsters| && r.monsters == b.monsters[i := r.monsters[i]]
    ensures r.monsters[i] == b.monsters[i].(hp := r.monsters[i].hp) == Hit(b.monsters[i], amount)
    ensures b.monsters[i].hp > 0.0 && amount >= b.monsters[i].hp ==>
              && r.monsters[i].hp == 0.0
              && r.killed == b.killed + 1
              && r.killScore == b.killScore + b.monsters[i].pts
              && r.money == b.money + b.monsters[i].gold
    ensures b.monsters[i].hp > 0.0 && amount < b.monsters[i].hp ==>
              && r.monsters[i].hp == b.monsters[i].hp - amount
              && r.killed == b.killed && r.killScore == b.killScore && r.money == b.money
    ensures r.totalDamage + SumHp(r.monsters) == b.totalDamage + SumHp(b.monsters)
    ensures r.killed + Alive(r.monsters) == b.killed + Alive(b.monsters)
  {
    var m := b.monsters[i];
    if m.hp <= 0.0 then b
    else
      var dealt := JsNumber.MinReal(m.hp, amount);
      var hit := m.(hp := m.hp - dealt);
      SumHpUpdate(b.monsters, i, hit);
      AliveUpdate(b.monsters, i, hit);
      var b1 := b.(monsters := b.monsters[i := hit], totalDamage := b.totalDamage + dealt);
      if hit.hp <= 0.0 then
        b1.(killed := b1.killed + 1, killScore := b1.killScore + m.pts, money := b1.money + m.gold)
      else b1
  }

  // ---------------------------------------------------------------------------
  // Movement

  /**
   * The movement loop of updateMonsters: whole cells are consumed while
   * distance remains and the end of the corridor is not reached; what is
   * left advances the progress within the current cell.
   */
  function Advance(index: int, progress: real, remaining: real, endIndex: int): (r: (int, real))
    ensures r.0 >= index
    ensures index < endIndex ==> r.0 <= endIndex
    ensures remaining <= 0.0 || index >= endIndex ==> r == (index, progress)
    ensures 0.0 <= progress < 1.0 ==> 0.0 <= r.1 < 1.0
    ensures 0.0 <= progress < 1.0 && index < endIndex && r.0 < endIndex ==>
              && 0.0 <= r.1 < 1.0
              && r.0 as real + r.1 == index as real + progress + JsNumber.MaxReal(remaining, 0.0)
    ensures 0.0 <= progress < 1.0 && index < endIndex && r.0 == endIndex ==>
              && r.1 == 0.0
              && endIndex as real <= index as real + progress + remaining
    decreases endIndex - index
  {
    if remaining <= 0.0 || index >= endIndex then (index, progress)
    else
      var stepLeft := 1.0 - progress;
      if remaining < stepLeft then (index, progress + remaining)
      else Advance(index + 1, 0.0, remaining - stepLeft, endIndex)
  }

  /** The drawn position between the centres of cell `index` and the next one. */
  function Position(cells: seq<Cell>, index: int, progress: real): Point
    requires 0 <= index < |cells| - 1
  {
    var current := cells[index];
    var next := cells[index + 1];
    Point(current.x as real + 0.5 + (next.x - current.x) as real * progress,
          current.y as real + 0.5 + (next.y - current.y) as real * progress)
  }

  /** A slow wears off by dt; once it runs out both its strength and duration reset to 0. */
  function SlowTick(m: Monster, dt: real): (r: Monster)
    ensures r == m.(slowPct := r.slowPct, slowRemaining := r.slowRemaining)
    ensures m.slowRemaining > 0.0 && m.slowRemaining - dt <= 0.0 ==> r.slowPct == 0.0 && r.slowRemaining == 0.0
    ensures m.slowRemaining > 0.0 && m.slowRemaining - dt > 0.0 ==> r.slowPct == m.slowPct && r.slowRemaining == m.slowRemaining - dt
    ensures m.slowRemaining <= 0.0 ==> r == m
  {
    if m.slowRemaining > 0.0 then
      var left := m.slowRemaining - dt;
      if left <= 0.0 then m.(slowRemaining := 0.0, slowPct := 0.0) else m.(slowRemaining := left)
    else m
  }

  /** Every monster has a non-negative cell index on the corridor and a progress in [0, 1) within it. */
  predicate OnCorridor(ms: seq<Monster>) {
    forall j :: 0 <= j < |ms| ==> ms[j].pathIndex >= 0 && 0.0 <= ms[j].pathProgress < 1.0
  }

  /**
   * What the frame does to a living monster's slow and place: the slow
   * wears off first, then the monster covers its Travel distance along the
   * corridor towards cell `endIndex`.
   */
  predicate Stepped(before: Monster, after: Monster, dt: real, endIndex: int) {
    && after.slowPct == SlowTick(before, dt).slowPct
    && after.slowRemaining == SlowTick(before, dt).slowRemaining
    && (after.pathIndex, after.pathProgress) == Advance(before.pathIndex, before.pathProgress, Travel(before, dt), endIndex)
  }

  /** The distance a monster covers in dt: its base speed, reduced by the slow left after the tick. */
  function Travel(m: Monster, dt: real): real {
    m.baseSpeed * (1.0 - SlowTick(m, dt).slowPct) * dt
  }

  /** A living monster's slow tick and movement, before the leak test. */
  function Moved(m: Monster, dt: real, endIndex: int): (r: Monster)
    ensures Stepped(m, r, dt, endIndex)
    ensures r == m.(slowPct := r.slowPct, slowRemaining := r.slowRemaining, pathIndex := r.pathIndex, pathProgress := r.pathProgress)
    ensures r.pathIndex >= m.pathIndex
    ensures 0.0 <= m.pathProgress < 1.0 ==> 0.0 <= r.pathProgress < 1.0
  {
    var step := Advance(m.pathIndex, m.pathProgress, Travel(m, dt), endIndex);
    SlowTick(m, dt).(pathIndex := step.0, pathProgress := step.1)
  }

  /**
   * One monster's frame as seen from the list: a dead monster is untouched;
   * a living one keeps its id and gold, has its slow and place stepped, and
   * either survives with its hit points before the last cell or leaks
   * with 0 hit points.
   */
  predicate Framed(a: Monster, b: Monster, dt: real, endIndex: int) {
    && b.id == a.id && b.gold == a.gold
    && (a.hp <= 0.0 ==> b == a)
    && (a.hp > 0.0 ==> Stepped(a, b, dt, endIndex))
    && (b.hp > 0.0 ==> b.hp == a.hp && b.pathIndex < endIndex)
    && (b.hp <= 0.0 ==> b.hp == 0.0 || b.hp == a.hp)
  }

  /**
   * What one monster's frame does to the monster: a dead one is skipped; a
   * living one moves at its slowed speed, and on reaching the last cell it
   * leaks with 0 hit points; otherwise its drawn position follows.
   */
  function FrameOne(m: Monster, dt: real, cells: seq<Cell>): (r: Monster)
    requires |cells| > 0 && m.pathIndex >= 0 && 0.0 <= m.pathProgress < 1.0
    ensures Framed(m, r, dt, |cells| - 1)
    ensures r.pathIndex >= m.pathIndex && 0.0 <= r.pathProgress < 1.0
  {
    if m.hp <= 0.0 then m
    else
      var moved := Moved(m, dt, |cells| - 1);
      if moved.pathIndex >= |cells| - 1 then moved.(hp := 0.0)
      else moved.(position := Position(cells, moved.pathIndex, moved.pathProgress))
  }

  /**
   * One monster's frame in the run: the monster is framed; a leak costs the
   * player one hp and adds to the leak penalty, and the run ends in defeat
   * when hp reaches 0.
   */
  function UpdateMonster(s: State, i: int, dt: real): (r: State)
    requires 0 <= i < |s.monsters| && |s.path.cells| > 0
    requires s.monsters[i].pathIndex >= 0 && 0.0 <= s.monsters[i].pathProgress < 1.0
    ensures r.monsters == s.monsters[i := FrameOne(s.monsters[i], dt, s.path.cells)]
    ensures s.monsters[i].hp <= 0.0 ==> r == s
    ensures s.player.hp - r.player.hp == Alive(s.monsters) - Alive(r.monsters)
    ensures r.stats.leakPenalty - s.stats.leakPenalty == LeakPenalty * (Alive(s.monsters) - Alive(r.monsters))
    ensures 0 <= s.player.hp - r.player.hp <= 1
    ensures r.player.hp < s.player.hp && r.player.hp <= 0 ==> r.phase == Ended
    ensures r.player.hp == s.player.hp ==> r.phase == s.phase && r.summary == s.summary
    ensures s.phase == Ended ==> r.phase == Ended && r.summary == s.summary
    ensures r.phase == s.phase || r.phase == Ended
    ensures s.phase != Ended && r.phase == Ended ==> r.summary.Some?
    ensures r.player.money == s.player.money && r.towers == s.towers && r.path == s.path && r.wave.index == s.wave.index
    ensures r.stats.killed == s.stats.killed && r.stats.totalDamage == s.stats.totalDamage
    ensures r.stats.killScore == s.stats.killScore && r.rng == s.rng && r.nextId == s.nextId && r.buildable == s.buildable
    ensures r.wave.spawnQueue == s.wave.spawnQueue && r.stats.startTime == s.stats.startTime
  {
    var m := s.monsters[i];
    var f := FrameOne(m, dt, s.path.cells);
    if m.hp <= 0.0 then
      assert s.monsters[i := f] == s.monsters;
      s
    else
      AliveUpdate(s.monsters, i, f);
      if f.hp <= 0.0 then
        var s1 := s.(monsters := s.monsters[i := f], player := s.player.(hp := s.player.hp - 1),
                     stats := s.stats.(leakPenalty := s.stats.leakPenalty + LeakPenalty));
        if s1.player.hp <= 0 then EndRun(s1) else s1
      else
        s.(monsters := s.monsters[i := f])
  }

  /** updateMonsters from monster `i` on, in list order: earlier monsters stay, later ones are framed. */
  function UpdateMonstersFrom(s: State, i: nat, dt: real): (r: State)
    requires |s.path.cells| > 0 && OnCorridor(s.monsters) && i <= |s.monsters|
    ensures |r.monsters| == |s.monsters| && OnCorridor(r.monsters)
    ensures forall j :: 0 <= j < i ==> r.monsters[j] == s.monsters[j]
    ensures forall j :: i <= j < |s.monsters| ==> r.monsters[j] == FrameOne(s.monsters[j], dt, s.path.cells)
    ensures s.player.hp - r.player.hp == Alive(s.monsters) - Alive(r.monsters)
    ensures r.stats.leakPenalty - s.stats.leakPenalty == LeakPenalty * (Alive(s.monsters) - Alive(r.monsters))
    ensures r.player.hp <= s.player.hp
    ensures r.player.hp < s.player.hp && r.player.hp <= 0 ==> r.phase == Ended
    ensures s.phase == Ended ==> r.phase == Ended && r.summary == s.summary
    ensures r.phase == s.phase || r.phase == Ended
    ensures s.phase != Ended && r.phase == Ended ==> r.summary.Some?
    ensures r.player.money == s.player.money && r.towers == s.towers && r.path == s.path && r.wave.index == s.wave.index
    ensures r.stats.killed == s.stats.killed && r.stats.totalDamage == s.stats.totalDamage
    ensures r.stats.killScore == s.stats.killScore && r.rng == s.rng && r.nextId == s.nextId && r.buildable == s.buildable
    ensures r.wave.spawnQueue == s.wave.spawnQueue && r.stats.startTime == s.stats.startTime
    decreases |s.monsters| - i
  {
    if i == |s.monsters| then s
    else
      var t := UpdateMonster(s, i, dt);
      UpdateMonstersFrom(t, i + 1, dt)
  }

  /** updateMonsters: every monster's frame, in list order. */
  function UpdateMonsters(s: State, dt: real): (r: State)
    requires |s.path.cells| > 0 && OnCorridor(s.monsters)
    ensures |r.monsters| == |s.monsters| && OnCorridor(r.monsters)
    ensures GoldNonNegative(s.monsters) ==> GoldNonNegative(r.monsters)
    ensures forall j :: 0 <= j < |s.monsters| ==> Framed(s.monsters[j], r.monsters[j], dt, |s.path.cells| - 1)
    ensures forall j :: 0 <= j < |s.monsters| && r.monsters[j].hp > 0.0 ==>
              r.monsters[j].hp == s.monsters[j].hp && r.monsters[j].pathIndex < |s.path.cells| - 1
    ensures s.player.hp - r.player.hp == Alive(s.monsters) - Alive(r.monsters)
    ensures r.stats.leakPenalty - s.stats.leakPenalty == LeakPenalty * (Alive(s.monsters) - Alive(r.monsters))
    ensures r.player.hp < s.player.hp && r.player.hp <= 0 ==> r.phase == Ended
    ensures s.phase == Ended ==> r.phase == Ended && r.summary == s.summary
    ensures r.phase == s.phase || r.phase == Ended
    ensures s.phase != Ended && r.phase == Ended ==> r.summary.Some?
    ensures r.player.money == s.player.money && r.towers == s.towers && r.path == s.path && r.wave.index == s.wave.index
    ensures r.buildable == s.buildable && r.nextId == s.nextId && r.wave.spawnQueue == s.wave.spawnQueue
    ensures r.stats.killed == s.stats.killed
  {
    UpdateMonstersFrom(s, 0, dt)
  }

  // ---------------------------------------------------------------------------
  // updateTowers

  /** `distance(a, b) <= radius`, squared so that no root is taken. */
  predicate InReach(a: Point, b: Point, radius: real) {
    radius >= 0.0 && (a.x - b.x) * (a.x - b.x) + (a.y - b.y) * (a.y - b.y) <= radius * radius
  }

  predicate Increasing(idxs: seq<int>) {
    forall a, b :: 0 <= a < b < |idxs| ==> idxs[a] < idxs[b]
  }

  predicate IndicesOf(idxs: seq<int>, ms: seq<Monster>) {
    forall q :: 0 <= q < |idxs| ==> 0 <= idxs[q] < |ms|
  }

  /** The `living` snapshot: the positions of the monsters with hit points left, in order. */
  function Living(ms: seq<Monster>, n: nat): (r: seq<int>)
    requires n <= |ms|
    ensures Increasing(r)
    ensures forall q :: 0 <= q < |r| ==> 0 <= r[q] < n && ms[r[q]].hp > 0.0
  {
    if n == 0 then []
    else
      var init := Living(ms, n - 1);
      if ms[n - 1].hp > 0.0 then init + [n - 1] else init
  }

  /** The snapshot misses no living monster. */
  lemma {:induction false} LivingComplete(ms: seq<Monster>, n: nat)
    requires n <= |ms|
    ensures forall j :: 0 <= j < n && ms[j].hp > 0.0 ==> j in Living(ms, n)
  {
    if n > 0 {
      LivingComplete(ms, n - 1);
    }
  }

  /** Appending an index above the last one keeps a list increasing. */
  lemma AppendIncreasing(idxs: seq<int>, x: int)
    ensures Increasing(idxs) && (|idxs| == 0 || idxs[|idxs| - 1] < x) ==> Increasing(idxs + [x])
  {
  }

  /** In an increasing list, everything before the last index is below it. */
  lemma PrefixBelowLast(idxs: seq<int>, prefix: seq<int>)
    requires |idxs| > 0 && prefix == idxs[..|idxs| - 1]
    ensures Increasing(idxs) ==> forall x :: x in prefix ==> x < idxs[|idxs| - 1]
  {
  }

  /** The snapshot monsters within `radius` of `center`, in snapshot order. */
  function Within(idxs: seq<int>, ms: seq<Monster>, center: Point, radius: real): (r: seq<int>)
    requires IndicesOf(idxs, ms)
    ensures IndicesOf(r, ms)
    ensures Increasing(idxs) ==> Increasing(r)
    ensures forall q :: 0 <= q < |r| ==> r[q] in idxs && InReach(center, ms[r[q]].position, radius)
    ensures forall q :: 0 <= q < |idxs| && InReach(center, ms[idxs[q]].position, radius) ==> idxs[q] in r
    decreases |idxs|
  {
    if |idxs| == 0 then []
    else
      var prefix := idxs[..|idxs| - 1];
      var init := Within(prefix, ms, center, radius);
      var last := idxs[|idxs| - 1];
      PrefixBelowLast(idxs, prefix);
      AppendIncreasing(init, last);
      if InReach(center, ms[last].position, radius) then init + [last] else init
  }

  /** targetPriority: how far along the corridor a monster is. */
  function Priority(m: Monster): real {
    m.pathIndex as real + m.pathProgress
  }

  /**
   * inRange[0] after the stable descending sort by priority: the first
   * entry whose priority no other entry exceeds.
   */
  function FirstBest(idxs: seq<int>, ms: seq<Monster>): (k: nat)
    requires |idxs| > 0 && IndicesOf(idxs, ms)
    ensures k < |idxs|
    ensures forall q :: 0 <= q < |idxs| ==> Priority(ms[idxs[q]]) <= Priority(ms[idxs[k]])
    ensures forall q :: 0 <= q < k ==> Priority(ms[idxs[q]]) < Priority(ms[idxs[k]])
    decreases |idxs|
  {
    if |idxs| == 1 then 0
    else
      var k := FirstBest(idxs[..|idxs| - 1], ms);
      if Priority(ms[idxs[|idxs| - 1]]) > Priority(ms[idxs[k]]) then |idxs| - 1 else k
  }

  /** Lists that differ only in hit points and slows give the same in-range filter. */
  lemma {:induction false} WithinSame(idxs: seq<int>, a: seq<Monster>, b: seq<Monster>, center: Point, radius: real)
    requires IndicesOf(idxs, a) && SameBut(a, b)
    ensures Within(idxs, a, center, radius) == Within(idxs, b, center, radius)
    decreases |idxs|
  {
    if |idxs| > 0 {
      WithinSame(idxs[..|idxs| - 1], a, b, center, radius);
      assert a[idxs[|idxs| - 1]].position == b[idxs[|idxs| - 1]].position;
    }
  }

  /** ... and the same front-most choice. */
  lemma {:induction false} FirstBestSame(idxs: seq<int>, a: seq<Monster>, b: seq<Monster>)
    requires |idxs| > 0 && IndicesOf(idxs, a) && SameBut(a, b)
    ensures FirstBest(idxs, a) == FirstBest(idxs, b)
    decreases |idxs|
  {
    if |idxs| > 1 {
      var init := idxs[..|idxs| - 1];
      FirstBestSame(init, a, b);
      var k := FirstBest(init, a);
      assert Priority(a[idxs[|idxs| - 1]]) == Priority(b[idxs[|idxs| - 1]]);
      assert Priority(a[init[k]]) == Priority(b[init[k]]);
    }
  }

  /** Only hit points and the slow may differ between two monster lists. */
  predicate SameBut(a: seq<Monster>, b: seq<Monster>) {
    && |a| == |b|
    && forall j :: 0 <= j < |a| ==> b[j] == a[j].(hp := b[j].hp, slowPct := b[j].slowPct, slowRemaining := b[j].slowRemaining)
  }

  predicate GoldNonNegative(ms: seq<Monster>) {
    forall j :: 0 <= j < |ms| ==> ms[j].gold >= 0
  }

  /**
   * What hits may do to a battle: only hit points and slows change, the
   * damage dealt is the hit points lost, every death is counted once, and
   * kills of monsters with non-negative gold never cost money.
   */
  predicate Effect(b: Battle, r: Battle) {
    && SameBut(b.monsters, r.monsters)
    && r.totalDamage + SumHp(r.monsters) == b.totalDamage + SumHp(b.monsters)
    && r.killed + Alive(r.monsters) == b.killed + Alive(b.monsters)
    && (GoldNonNegative(b.monsters) ==> GoldNonNegative(r.monsters) && r.money >= b.money)
  }

  lemma EffectChain(a: Battle, b: Battle, c: Battle)
    requires Effect(a, b) && Effect(b, c)
    ensures Effect(a, c)
  {
  }

  /** No monster gains hit points. */
  predicate NoHeal(a: seq<Monster>, b: seq<Monster>) {
    |a| == |b| && forall j :: 0 <= j < |a| ==> b[j].hp <= a[j].hp
  }

  /** Hit points that never rise give a hit-point total that never rises. */
  lemma {:induction false} SumHpNoHeal(a: seq<Monster>, b: seq<Monster>)
    requires NoHeal(a, b)
    ensures SumHp(b) <= SumHp(a)
    decreases |a|
  {
    if |a| > 0 {
      SumHpNoHeal(a[..|a| - 1], b[..|b| - 1]);
    }
  }

  /** Under an Effect that heals no one, the damage total never falls. */
  lemma EffectNoHealDamage(b: Battle, r: Battle)
    requires Effect(b, r)
    ensures NoHeal(b.monsters, r.monsters) ==> r.totalDamage >= b.totalDamage
  {
    if NoHeal(b.monsters, r.monsters) {
      SumHpNoHeal(b.monsters, r.monsters);
    }
  }

  /** One hit is an Effect. */
  lemma ApplyDamageEffect(b: Battle, j: int, amount: real)
    requires 0 <= j < |b.monsters|
    ensures Effect(b, ApplyDamage(b, j, amount))
  {
  }

  /**
   * The bomb blast: every snapshot monster from position q on within the
   * radius takes the damage, once, and no other monster is touched.
   */
  function Splash(b: Battle, living: seq<int>, q: nat, center: Point, radius: real, damage: real): (r: Battle)
    requires IndicesOf(living, b.monsters) && Increasing(living) && q <= |living|
    ensures Effect(b, r)
    ensures forall j :: 0 <= j < |b.monsters| && r.monsters[j] != b.monsters[j] ==>
              j in living[q..] && InReach(center, b.monsters[j].position, radius)
    ensures forall k :: q <= k < |living| && InReach(center, b.monsters[living[k]].position, radius) ==>
              r.monsters[living[k]] == Hit(b.monsters[living[k]], damage)
    decreases |living| - q
  {
    if q == |living| then b
    else
      var j := living[q];
      if InReach(center, b.monsters[j].position, radius) then
        var t := ApplyDamage(b, j, damage);
        ApplyDamageEffect(b, j, damage);
        var r := Splash(t, living, q + 1, center, radius, damage);
        EffectChain(b, t, r);
        assert j !in living[q + 1..];
        r
      else Splash(b, living, q + 1, center, radius, damage)
  }

  /** The ice slow: the stronger strength and the longer duration win. */
  function Chill(m: Monster, slowPct: real, slowDuration: real): (r: Monster)
    ensures r.slowPct >= m.slowPct && r.slowPct >= slowPct && (r.slowPct == m.slowPct || r.slowPct == slowPct)
    ensures r.slowRemaining >= m.slowRemaining && r.slowRemaining >= slowDuration
    ensures r == m.(slowPct := r.slowPct, slowRemaining := r.slowRemaining)
  {
    m.(slowPct := JsNumber.MaxReal(m.slowPct, slowPct), slowRemaining := JsNumber.MaxReal(m.slowRemaining, slowDuration))
  }

  /** No member of an increasing list beats the FirstBest entry, and earlier members fall short of it. */
  lemma {:induction false} FirstBestAmong(idxs: seq<int>, ms: seq<Monster>)
    requires |idxs| > 0 && IndicesOf(idxs, ms) && Increasing(idxs)
    ensures forall j :: j in idxs ==>
              && Priority(ms[j]) <= Priority(ms[idxs[FirstBest(idxs, ms)]])
              && (j < idxs[FirstBest(idxs, ms)] ==> Priority(ms[j]) < Priority(ms[idxs[FirstBest(idxs, ms)]]))
  {
    var k := FirstBest(idxs, ms);
    forall j | j in idxs
      ensures Priority(ms[j]) <= Priority(ms[idxs[k]])
      ensures j < idxs[k] ==> Priority(ms[j]) < Priority(ms[idxs[k]])
    {
      var q :| 0 <= q < |idxs| && idxs[q] == j;
      if j < idxs[k] {
        assert q < k;
      }
    }
  }

  function TowerCentre(t: Tower): Point {
    Point(t.x as real + 0.5, t.y as real + 0.5)
  }

  /** The target of a ready tower: the front-most snapshot monster in range, first in list order on ties. */
  function TargetOf(ms: seq<Monster>, tower: Tower, living: seq<int>): (r: Option<int>)
    requires IndicesOf(living, ms) && Increasing(living)
    ensures r.None? <==> forall q :: 0 <= q < |living| ==> !InReach(TowerCentre(tower), ms[living[q]].position, tower.range)
    ensures r.Some? ==> && r.value in living && 0 <= r.value < |ms|
                        && InReach(TowerCentre(tower), ms[r.value].position, tower.range)
    ensures r.Some? ==> forall q :: 0 <= q < |living| && InReach(TowerCentre(tower), ms[living[q]].position, tower.range) ==>
                          && Priority(ms[living[q]]) <= Priority(ms[r.value])
                          && (living[q] < r.value ==> Priority(ms[living[q]]) < Priority(ms[r.value]))
  {
    var inRange := Within(living, ms, TowerCentre(tower), tower.range);
    if |inRange| == 0 then None
    else
      FirstBestAmong(inRange, ms);
      Some(inRange[FirstBest(inRange, ms)])
  }

  /** Every tower has a positive attack speed, so 1 / attackSpeed is a cooldown. */
  predicate TowersArmed(towers: seq<Tower>) {
    forall k :: 0 <= k < |towers| ==> towers[k].attackSpeed > 0.0
  }

  /**
   * A shot at `target`: a bomb damages every snapshot monster within its
   * splash radius of the target, the other kinds damage the target, and ice
   * also slows it.
   */
  function Strike(b: Battle, tower: Tower, target: int, living: seq<int>): (r: Battle)
    requires 0 <= target < |b.monsters| && IndicesOf(living, b.monsters) && Increasing(living)
    ensures Effect(b, r)
    ensures tower.kind != Towers.Bomb ==>
              forall j :: 0 <= j < |b.monsters| && j != target ==> r.monsters[j] == b.monsters[j]
    ensures tower.kind != Towers.Bomb ==> r.monsters[target].hp == ApplyDamage(b, target, tower.damage).monsters[target].hp
    ensures tower.kind == Towers.Bomb ==>
              forall j :: 0 <= j < |b.monsters| && r.monsters[j] != b.monsters[j] ==>
                j in living && InReach(b.monsters[target].position, b.monsters[j].position, tower.splashRadius)
    ensures tower.kind == Towers.Bomb ==>
              forall q :: 0 <= q < |living| && InReach(b.monsters[target].position, b.monsters[living[q]].position, tower.splashRadius) ==>
                r.monsters[living[q]] == Hit(b.monsters[living[q]], tower.damage)
    ensures tower.kind == Towers.Ice ==>
              r.monsters[target].slowPct >= tower.slowPct && r.monsters[target].slowRemaining >= tower.slowDuration
  {
    if tower.kind == Towers.Bomb then
      Splash(b, living, 0, b.monsters[target].position, tower.splashRadius, tower.damage)
    else
      var b1 := ApplyDamage(b, target, tower.damage);
      ApplyDamageEffect(b, target, tower.damage);
      if tower.kind == Towers.Ice then
        var chilled := Chill(b1.monsters[target], tower.slowPct, tower.slowDuration);
        SumHpUpdate(b1.monsters, target, chilled);
        AliveUpdate(b1.monsters, target, chilled);
        var b2 := b1.(monsters := b1.monsters[target := chilled]);
        EffectChain(b, b1, b2);
        b2
      else b1
  }

  /** A shot of non-negative damage heals no one. */
  lemma StrikeNoHeal(b: Battle, tower: Tower, target: int, living: seq<int>)
    requires 0 <= target < |b.monsters| && IndicesOf(living, b.monsters) && Increasing(living)
    ensures tower.damage >= 0.0 ==> NoHeal(b.monsters, Strike(b, tower, target, living).monsters)
  {
    var r := Strike(b, tower, target, living);
    if tower.damage >= 0.0 {
      forall j | 0 <= j < |b.monsters| ensures r.monsters[j].hp <= b.monsters[j].hp {
        if r.monsters[j] != b.monsters[j] && tower.kind == Towers.Bomb {
          var q :| 0 <= q < |living| && living[q] == j;
        }
      }
    }
  }

  /** The monster a tower shoots this frame: none while it reloads, else its target. */
  function Aim(ms: seq<Monster>, tower: Tower, dt: real, living: seq<int>): (r: Option<int>)
    requires IndicesOf(living, ms) && Increasing(living)
    ensures r.Some? ==> 0 <= r.value < |ms|
  {
    if tower.cooldown - dt > 0.0 then None else TargetOf(ms, tower, living)
  }

  /** Hits and slows never change whom a tower aims at: it looks only at places. */
  lemma AimSame(a: seq<Monster>, b: seq<Monster>, tower: Tower, dt: real, living: seq<int>)
    requires IndicesOf(living, a) && Increasing(living) && SameBut(a, b)
    ensures IndicesOf(living, b)
    ensures Aim(a, tower, dt, living) == Aim(b, tower, dt, living)
  {
    var c := TowerCentre(tower);
    WithinSame(living, a, b, c, tower.range);
    var inRange := Within(living, a, c, tower.range);
    if |inRange| > 0 {
      FirstBestSame(inRange, a, b);
    }
  }

  /** The cooldown after a frame: still reloading, idle at 0, or reloaded for 1 / attackSpeed after a shot. */
  function Reload(tower: Tower, dt: real, fired: bool): (c: real)
    requires tower.attackSpeed > 0.0
    ensures c >= 0.0
    ensures tower.cooldown - dt > 0.0 ==> c == tower.cooldown - dt
    ensures tower.cooldown - dt <= 0.0 ==> c == (if fired then 1.0 / tower.attackSpeed else 0.0)
  {
    if tower.cooldown - dt > 0.0 then tower.cooldown - dt
    else if fired then 1.0 / tower.attackSpeed
    else 0.0
  }

  /** Every tower of the list aims alike at two lists that differ only in hit points and slows. */
  lemma AimsSame(a: seq<Monster>, b: seq<Monster>, towers: seq<Tower>, dt: real, living: seq<int>)
    requires IndicesOf(living, a) && Increasing(living) && SameBut(a, b)
    ensures forall q :: 0 <= q < |towers| ==> Aim(a, towers[q], dt, living) == Aim(b, towers[q], dt, living)
  {
    forall q | 0 <= q < |towers|
      ensures Aim(a, towers[q], dt, living) == Aim(b, towers[q], dt, living)
    {
      AimSame(a, b, towers[q], dt, living);
    }
  }

  /**
   * One tower's frame: the cooldown runs down; a ready tower with nothing in
   * range waits at 0; otherwise it strikes its target and reloads.
   */
  function FireTower(b: Battle, tower: Tower, dt: real, living: seq<int>): (r: (Battle, Tower))
    requires tower.attackSpeed > 0.0 && IndicesOf(living, b.monsters) && Increasing(living)
    ensures r.1 == tower.(cooldown := Reload(tower, dt, Aim(b.monsters, tower, dt, living).Some?))
    ensures Aim(b.monsters, tower, dt, living).None? ==> r.0 == b
    ensures Aim(b.monsters, tower, dt, living).Some? ==> r.0 == Strike(b, tower, Aim(b.monsters, tower, dt, living).value, living)
    ensures Effect(b, r.0)
    ensures tower.damage >= 0.0 ==> NoHeal(b.monsters, r.0.monsters)
  {
    var target := Aim(b.monsters, tower, dt, living);
    var fired := tower.(cooldown := Reload(tower, dt, target.Some?));
    if target.None? then (b, fired)
    else
      StrikeNoHeal(b, tower, target.value, living);
      (Strike(b, tower, target.value, living), fired)
  }

  /** updateTowers from tower `k` on, in list order, against one snapshot. */
  function UpdateTowersFrom(b: Battle, towers: seq<Tower>, k: nat, dt: real, living: seq<int>): (r: (Battle, seq<Tower>))
    requires k <= |towers| && TowersArmed(towers)
    requires IndicesOf(living, b.monsters) && Increasing(living)
    ensures |r.1| == |towers| && TowersArmed(r.1)
    ensures forall q :: 0 <= q < k ==> r.1[q] == towers[q]
    ensures forall q :: k <= q < |towers| ==> r.1[q] == towers[q].(cooldown := r.1[q].cooldown) && r.1[q].cooldown >= 0.0
    ensures Effect(b, r.0)
    decreases |towers| - k
  {
    if k == |towers| then (b, towers)
    else
      var (b1, fired) := FireTower(b, towers[k], dt, living);
      var r := UpdateTowersFrom(b1, towers[k := fired], k + 1, dt, living);
      EffectChain(b, b1, r.0);
      r
  }

  /**
   * Towers from `k` on reload as their own aim at the snapshot says: earlier
   * shots change no place, and so no later aim.
   */
  lemma {:induction false} TowersReload(b: Battle, towers: seq<Tower>, k: nat, dt: real, living: seq<int>)
    requires k <= |towers| && TowersArmed(towers)
    requires IndicesOf(living, b.monsters) && Increasing(living)
    ensures forall q :: k <= q < |towers| ==>
              UpdateTowersFrom(b, towers, k, dt, living).1[q].cooldown == Reload(towers[q], dt, Aim(b.monsters, towers[q], dt, living).Some?)
    decreases |towers| - k
  {
    if k < |towers| {
      var (b1, fired) := FireTower(b, towers[k], dt, living);
      var next := towers[k := fired];
      AimsSame(b.monsters, b1.monsters, towers, dt, living);
      TowersReload(b1, next, k + 1, dt, living);
      forall q | k < q < |towers|
        ensures next[q] == towers[q]
      {
      }
    }
  }

  /** When no tower from `k` on has a target, the battle is untouched. */
  lemma {:induction false} NoShotNoChange(b: Battle, towers: seq<Tower>, k: nat, dt: real, living: seq<int>)
    requires k <= |towers| && TowersArmed(towers)
    requires IndicesOf(living, b.monsters) && Increasing(living)
    ensures (forall q :: k <= q < |towers| ==> Aim(b.monsters, towers[q], dt, living).None?) ==>
              UpdateTowersFrom(b, towers, k, dt, living).0 == b
    decreases |towers| - k
  {
    if k < |towers| && forall q :: k <= q < |towers| ==> Aim(b.monsters, towers[q], dt, living).None? {
      var (b1, fired) := FireTower(b, towers[k], dt, living);
      var next := towers[k := fired];
      forall q | k < q < |towers|
        ensures next[q] == towers[q]
      {
      }
      NoShotNoChange(b1, next, k + 1, dt, living);
    }
  }

  /** Towers of non-negative damage heal no monster. */
  lemma {:induction false} TowersNoHeal(b: Battle, towers: seq<Tower>, k: nat, dt: real, living: seq<int>)
    requires k <= |towers| && TowersArmed(towers)
    requires IndicesOf(living, b.monsters) && Increasing(living)
    ensures (forall q :: k <= q < |towers| ==> towers[q].damage >= 0.0) ==>
              NoHeal(b.monsters, UpdateTowersFrom(b, towers, k, dt, living).0.monsters)
    decreases |towers| - k
  {
    if k < |towers| && forall q :: k <= q < |towers| ==> towers[q].damage >= 0.0 {
      var (b1, fired) := FireTower(b, towers[k], dt, living);
      var next := towers[k := fired];
      forall q | k + 1 <= q < |next|
        ensures next[q].damage >= 0.0
      {
        assert next[q] == towers[q];
      }
      TowersNoHeal(b1, next, k + 1, dt, living);
      var r := UpdateTowersFrom(b1, next, k + 1, dt, living).0;
      assert UpdateTowersFrom(b, towers, k, dt, living).0 == r;
      forall j | 0 <= j < |b.monsters|
        ensures r.monsters[j].hp <= b.monsters[j].hp
      {
        assert r.monsters[j].hp <= b1.monsters[j].hp;
      }
    }
  }

  /** The battle view of a state. */
  function BattleOf(s: State): Battle {
    Battle(s.monsters, s.stats.killed, s.stats.killScore, s.stats.totalDamage, s.player.money)
  }

  /** updateTowers: every tower's frame, against the monsters alive when the frame began. */
  function UpdateTowers(s: State, dt: real): (r: State)
    requires TowersArmed(s.towers)
    ensures |r.towers| == |s.towers| && TowersArmed(r.towers)
    ensures forall q :: 0 <= q < |s.towers| ==>
              r.towers[q] == s.towers[q].(cooldown := r.towers[q].cooldown) && r.towers[q].cooldown >= 0.0
    ensures Effect(BattleOf(s), BattleOf(r))
    ensures r == s.(monsters := r.monsters, towers := r.towers, player := s.player.(money := r.player.money),
                    stats := s.stats.(killed := r.stats.killed, killScore := r.stats.killScore, totalDamage := r.stats.totalDamage))
  {
    var (b, towers) := UpdateTowersFrom(BattleOf(s), s.towers, 0, dt, Living(s.monsters, |s.monsters|));
    s.(monsters := b.monsters, towers := towers, player := s.player.(money := b.money),
       stats := s.stats.(killed := b.killed, killScore := b.killScore, totalDamage := b.totalDamage))
  }

  /**
   * updateTowers against the frame's snapshot: each tower reloads as its own
   * aim says, a frame in which no tower has a target changes no monster and
   * no score, and towers of non-negative damage heal no one and never lower
   * the damage total.
   */
  lemma UpdateTowersByAim(s: State, dt: real)
    requires TowersArmed(s.towers)
    ensures forall q :: 0 <= q < |s.towers| ==>
              UpdateTowers(s, dt).towers[q].cooldown
              == Reload(s.towers[q], dt, Aim(s.monsters, s.towers[q], dt, Living(s.monsters, |s.monsters|)).Some?)
    ensures (forall q :: 0 <= q < |s.towers| ==> Aim(s.monsters, s.towers[q], dt, Living(s.monsters, |s.monsters|)).None?) ==>
              && UpdateTowers(s, dt).monsters == s.monsters
              && UpdateTowers(s, dt).player == s.player && UpdateTowers(s, dt).stats == s.stats
    ensures (forall q :: 0 <= q < |s.towers| ==> s.towers[q].damage >= 0.0) ==>
              && NoHeal(s.monsters, UpdateTowers(s, dt).monsters)
              && UpdateTowers(s, dt).stats.totalDamage >= s.stats.totalDamage
  {
    var living := Living(s.monsters, |s.monsters|);
    var r := UpdateTowers(s, dt);
    TowersReload(BattleOf(s), s.towers, 0, dt, living);
    NoShotNoChange(BattleOf(s), s.towers, 0, dt, living);
    TowersNoHeal(BattleOf(s), s.towers, 0, dt, living);
    EffectNoHealDamage(BattleOf(s), BattleOf(r));
  }

  /**
   * A frame with one bomb tower: when it shoots, every monster of the
   * snapshot within the splash radius of its target takes the tower's
   * damage; when it does not, no monster changes.
   */
  lemma LoneBombHitsAll(s: State, dt: real)
    requires |s.towers| == 1 && TowersArmed(s.towers) && s.towers[0].kind == Towers.Bomb
    ensures Aim(s.monsters, s.towers[0], dt, Living(s.monsters, |s.monsters|)).None? ==>
              UpdateTowers(s, dt).monsters == s.monsters
    ensures Aim(s.monsters, s.towers[0], dt, Living(s.monsters, |s.monsters|)).Some? ==>
              forall q :: 0 <= q < |Living(s.monsters, |s.monsters|)| &&
                          InReach(s.monsters[Aim(s.monsters, s.towers[0], dt, Living(s.monsters, |s.monsters|)).value].position,
                                  s.monsters[Living(s.monsters, |s.monsters|)[q]].position, s.towers[0].splashRadius) ==>
                UpdateTowers(s, dt).monsters[Living(s.monsters, |s.monsters|)[q]]
                == Hit(s.monsters[Living(s.monsters, |s.monsters|)[q]], s.towers[0].damage)
  {
    var living := Living(s.monsters, |s.monsters|);
    var (b1, fired) := FireTower(BattleOf(s), s.towers[0], dt, living);
    assert UpdateTowersFrom(BattleOf(s), s.towers, 0, dt, living) == UpdateTowersFrom(b1, s.towers[0 := fired], 1, dt, living);
  }

  // ---------------------------------------------------------------------------
  // clearDead

  /** The snapshot of a prefix is the snapshot of the whole list up to the same point. */
  lemma {:induction false} LivingOfPrefix(ms: seq<Monster>, m: nat, n: nat)
    requires n <= m <= |ms|
    ensures Living(ms[..m], n) == Living(ms, n)
  {
    if n > 0 {
      LivingOfPrefix(ms, m, n - 1);
      assert ms[..m][n - 1] == ms[n - 1];
      assert Living(ms[..m], n) == Living(ms[..m], n - 1) + (if ms[n - 1].hp > 0.0 then [n - 1] else []);
      assert Living(ms, n) == Living(ms, n - 1) + (if ms[n - 1].hp > 0.0 then [n - 1] else []);
    }
  }

  /** clearDead: the monsters with hit points left, in list order. */
  function ClearDead(ms: seq<Monster>): (r: seq<Monster>)
    ensures |r| == Alive(ms)
    decreases |ms|
  {
    if |ms| == 0 then []
    else
      var init := ClearDead(ms[..|ms| - 1]);
      if ms[|ms| - 1].hp > 0.0 then init + [ms[|ms| - 1]] else init
  }

  /** The k-th survivor of clearDead is the monster at the k-th entry of the snapshot. */
  lemma {:induction false} ClearDeadInOrder(ms: seq<Monster>)
    ensures |ClearDead(ms)| == |Living(ms, |ms|)|
    ensures forall k :: 0 <= k < |ClearDead(ms)| ==> ClearDead(ms)[k] == ms[Living(ms, |ms|)[k]]
    decreases |ms|
  {
    if |ms| > 0 {
      var n := |ms|;
      ClearDeadInOrder(ms[..n - 1]);
      var init := ClearDead(ms[..n - 1]);
      var l := Living(ms, n - 1);
      LivingOfPrefix(ms, n - 1, n - 1);
      forall k | 0 <= k < |init|
        ensures init[k] == ms[l[k]]
      {
        assert ms[..n - 1][l[k]] == ms[l[k]];
      }
      if ms[n - 1].hp > 0.0 {
        assert Living(ms, n) == l + [n - 1];
        assert ClearDead(ms) == init + [ms[n - 1]];
      } else {
        assert Living(ms, n) == l;
        assert ClearDead(ms) == init;
      }
    }
  }

  /** Every survivor is alive, and every living monster survives. */
  lemma ClearDeadKeepsLiving(ms: seq<Monster>)
    ensures forall k :: 0 <= k < |ClearDead(ms)| ==> ClearDead(ms)[k].hp > 0.0
    ensures forall j :: 0 <= j < |ms| && ms[j].hp > 0.0 ==> ms[j] in ClearDead(ms)
  {
    var r := ClearDead(ms);
    var l := Living(ms, |ms|);
    ClearDeadInOrder(ms);
    LivingComplete(ms, |ms|);
    forall j | 0 <= j < |ms| && ms[j].hp > 0.0
      ensures ms[j] in r
    {
      var k :| 0 <= k < |l| && l[k] == j;
      assert r[k] == ms[j];
    }
  }
}

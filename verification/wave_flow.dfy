/**
 * The wave cycle of frontend/src/game/game.js: startRun, startWave,
 * finishWave, spawnMonster and updateWave, as transitions of the
 * GameState record. Log messages are not kept.
 */
module WaveFlow {
  import opened Wrappers
  import opened Rng
  import opened GameState
  import Waves
  import JsNumber

  /** WAVES[level - 1]?.[wave - 1] for the level and wave of a wave index. */
  function Definition(cfg: Config, index: int): (d: Option<seq<Waves.WaveEntry>>)
    ensures d.Some? <==> (&& 1 <= Waves.LevelWave(index).0 <= |cfg.waves|
                          && Waves.LevelWave(index).1 <= |cfg.waves[Waves.LevelWave(index).0 - 1]|)
  {
    var lw := Waves.LevelWave(index);
    if 1 <= lw.0 <= |cfg.waves| && 1 <= lw.1 <= |cfg.waves[lw.0 - 1]| then
      Some(cfg.waves[lw.0 - 1][lw.1 - 1])
    else None
  }

  /** Every level lists its three waves. */
  predicate ThreeWavesPerLevel(cfg: Config) {
    forall l :: 0 <= l < |cfg.waves| ==> |cfg.waves[l]| == 3
  }

  /** With three waves per level, a wave index has a definition exactly when it is below TOTAL_WAVES. */
  lemma DefinitionExists(cfg: Config, index: int)
    requires ThreeWavesPerLevel(cfg)
    ensures Definition(cfg, index).Some? <==> 0 <= index < TotalWaves(cfg)
  {
    if index < 0 {
      assert Waves.LevelWave(index).0 <= 0;
    } else {
      Waves.LevelWaveInverse(index);
    }
  }

  /** DefinitionExists, as an implication that holds for every table. */
  lemma DefinitionWhenThree(cfg: Config, index: int)
    ensures ThreeWavesPerLevel(cfg) ==> (Definition(cfg, index).Some? <==> 0 <= index < TotalWaves(cfg))
  {
    if ThreeWavesPerLevel(cfg) {
      DefinitionExists(cfg, index);
    }
  }

  // ---------------------------------------------------------------------------
  // startWave

  /**
   * startWave: with no definition for the current index the run ends in
   * victory; otherwise the spawn queue is built, the first spawn is
   * scheduled in [0.6, 1.2) seconds and the wave starts spawning.
   */
  function StartWave(s: State, cfg: Config): (r: State)
    ensures Definition(cfg, s.wave.index).None? ==> r == EndRun(s)
    ensures Definition(cfg, s.wave.index).Some? ==>
              var definition := Definition(cfg, s.wave.index).value;
              && r.wave.status == Spawning
              && r.wave.index == s.wave.index
              && SpawnIntervalMin <= r.wave.spawnCooldown < SpawnIntervalMax
              && (|definition| == 0 ==> r.wave.spawnQueue == [])
              && (|definition| > 0 ==> |r.wave.spawnQueue| == Waves.TotalCount(definition) + 1)
              && (|definition| > 0 ==> exists at :: Waves.BossAt(r.wave.spawnQueue, at, definition))
              && Waves.WellScaled(r.wave.spawnQueue)
              && r.rng.draw == s.rng.draw
              && r.(rng := s.rng, wave := s.wave) == s
  {
    match Definition(cfg, s.wave.index)
    case None => EndRun(s)
    case Some(definition) =>
      var (o1, queue) := Waves.BuildQueue(s.rng, definition);
      var (o2, cooldown) := RandomRange(o1, SpawnIntervalMin, SpawnIntervalMax);
      s.(rng := o2, wave := s.wave.(spawnQueue := queue, spawnCooldown := cooldown, status := Spawning))
  }

  // ---------------------------------------------------------------------------
  // finishWave

  /**
   * finishWave: wave reward and money, the level bonus after a third wave,
   * then either the next index and an intermission, or, after the last
   * wave, victory with the index left on the completed wave.
   */
  function FinishWave(s: State, cfg: Config): (r: State)
    ensures r.stats.waveScore == s.stats.waveScore + WaveScore
    ensures r.player.money == s.player.money + WaveMoney
    ensures r.stats.levelScore == s.stats.levelScore + (if Waves.LevelWave(s.wave.index).1 == 3 then LevelScore else 0)
    ensures r.player.hp == s.player.hp && r.towers == s.towers && r.monsters == s.monsters
    ensures s.wave.index + 1 < TotalWaves(cfg) ==>
              && r.phase == s.phase && r.wave.index == s.wave.index + 1
              && r.wave.status == Intermission && r.wave.intermission == IntermissionSeconds
    ensures s.wave.index + 1 >= TotalWaves(cfg) ==> r.phase == Ended && r.wave.index == s.wave.index
    ensures s.phase != Ended && r.phase == Ended ==> r.summary.Some?
    ensures r.path == s.path && r.buildable == s.buildable && r.nextId == s.nextId
    ensures r.wave.spawnQueue == s.wave.spawnQueue
  {
    var lw := Waves.LevelWave(s.wave.index);
    var bonus := if lw.1 == 3 then LevelScore else 0;
    var s1 := s.(stats := s.stats.(waveScore := s.stats.waveScore + WaveScore,
                                   levelScore := s.stats.levelScore + bonus),
                 player := s.player.(money := s.player.money + WaveMoney));
    if s.wave.index + 1 >= TotalWaves(cfg) then EndRun(s1)
    else s1.(wave := s1.wave.(index := s.wave.index + 1, status := Intermission,
                              intermission := IntermissionSeconds))
  }

  /**
   * Finishing the last wave of a running run records a victory at the last
   * level's third wave, with the level bonus already counted.
   */
  lemma LastWaveVictory(s: State, cfg: Config)
    requires s.phase == Running && |cfg.waves| > 0 && s.wave.index == TotalWaves(cfg) - 1
    ensures var r := FinishWave(s, cfg);
            && r.phase == Ended && r.summary.Some?
            && r.summary.value.levelReached == |cfg.waves| && r.summary.value.waveReached == 3
            && r.stats.levelScore == s.stats.levelScore + LevelScore
  {
    var n := |cfg.waves|;
    assert s.wave.index == (n - 1) * 3 + 2;
    assert s.wave.index / 3 == n - 1;
    assert s.wave.index % 3 == 2;
  }

  // ---------------------------------------------------------------------------
  // spawnMonster

  /** The type, boss flag and multiplier spawnMonster reads from a queue entry. */
  function EntryKind(entry: Waves.SpawnEntry): string {
    match entry
    case Plain(kind) => kind
    case Boss(kind, _) => kind
  }

  function EntryMultiplier(entry: Waves.SpawnEntry): real {
    match entry
    case Plain(_) => 1.0
    case Boss(_, m) => m
  }

  /** The wave's growth factor: ten percent per completed wave index. */
  function WaveMultiplier(index: int): real {
    1.0 + index as real * 0.1
  }

  /** The hit points of a monster of template t spawned at wave `index` with multiplier m. */
  function SpawnHp(t: MonsterTemplate, index: int, m: real): int {
    JsNumber.Round(t.hp * WaveMultiplier(index) * m)
  }

  function SpawnGold(t: MonsterTemplate, m: real): int {
    JsNumber.Round(t.gold * GoldMultiplier * m)
  }

  /**
   * spawnMonster: an unknown type adds nothing; otherwise a fresh monster at
   * the centre of the first corridor cell, scaled by the wave and, for the
   * boss, by its multiplier.
   */
  function SpawnMonster(s: State, cfg: Config, entry: Waves.SpawnEntry): (r: State)
    requires |s.path.cells| > 0
    ensures EntryKind(entry) !in cfg.monsters ==> r == s
    ensures EntryKind(entry) in cfg.monsters ==> |r.monsters| == |s.monsters| + 1
    ensures EntryKind(entry) in cfg.monsters ==>
              var t := cfg.monsters[EntryKind(entry)];
              var m := r.monsters[|s.monsters|];
              var start := s.path.cells[0];
              && r.monsters[..|s.monsters|] == s.monsters
              && m.id == s.nextId && r.nextId == s.nextId + 1
              && m.kind == t.key && m.isBoss == entry.Boss? && m.pts == t.pts
              && m.maxHp as real - 0.5 <= t.hp * WaveMultiplier(s.wave.index) * EntryMultiplier(entry) < m.maxHp as real + 0.5
              && m.hp == m.maxHp as real
              && m.gold as real - 0.5 <= t.gold * GoldMultiplier * EntryMultiplier(entry) < m.gold as real + 0.5
              && m.baseSpeed == t.speed * WaveMultiplier(s.wave.index)
              && m.pathIndex == 0 && m.pathProgress == 0.0 && m.slowPct == 0.0 && m.slowRemaining == 0.0
              && m.position == Point(start.x as real + 0.5, start.y as real + 0.5)
              && r.(monsters := s.monsters, nextId := s.nextId) == s
  {
    var kind := EntryKind(entry);
    if kind !in cfg.monsters then s
    else
      var t := cfg.monsters[kind];
      var m := EntryMultiplier(entry);
      var hp := SpawnHp(t, s.wave.index, m);
      var start := s.path.cells[0];
      var monster := Monster(s.nextId, t.key, hp, hp as real, t.speed * WaveMultiplier(s.wave.index),
                             SpawnGold(t, m), t.pts, entry.Boss?, 0, 0.0, 0.0, 0.0,
                             Point(start.x as real + 0.5, start.y as real + 0.5));
      s.(monsters := s.monsters + [monster], nextId := s.nextId + 1)
  }

  /** A boss (multiplier at least 2) of a type never has fewer hit points or less gold than a plain one. */
  lemma BossOutranksPlain(t: MonsterTemplate, index: int, multiplier: real)
    requires t.hp >= 0.0 && t.gold >= 0.0 && index >= 0 && multiplier >= 2.0
    ensures SpawnHp(t, index, multiplier) >= SpawnHp(t, index, 1.0)
    ensures SpawnGold(t, multiplier) >= SpawnGold(t, 1.0)
  {
    var w := WaveMultiplier(index);
    assert t.hp * w >= 0.0;
    assert t.hp * w * multiplier >= t.hp * w * 1.0;
    JsNumber.RoundMonotone(t.hp * w * 1.0, t.hp * w * multiplier);
    assert t.gold * GoldMultiplier * multiplier >= t.gold * GoldMultiplier * 1.0;
    JsNumber.RoundMonotone(t.gold * GoldMultiplier * 1.0, t.gold * GoldMultiplier * multiplier);
  }

  // ---------------------------------------------------------------------------
  // updateWave

  /** One spawn: the head of the queue leaves it, is spawned, and the next spawn is scheduled. */
  function SpawnNext(s: State, cfg: Config, cooldown: real): (r: State)
    requires |s.path.cells| > 0 && |s.wave.spawnQueue| > 0
    ensures r.wave.spawnQueue == s.wave.spawnQueue[1..]
    ensures SpawnIntervalMin <= r.wave.spawnCooldown < SpawnIntervalMax
    ensures |s.monsters| <= |r.monsters| <= |s.monsters| + 1
    ensures r.monsters[..|s.monsters|] == s.monsters
    ensures (EntryKind(s.wave.spawnQueue[0]) in cfg.monsters) <==> |r.monsters| == |s.monsters| + 1
    ensures r.phase == s.phase && r.wave.status == s.wave.status && r.wave.index == s.wave.index
    ensures r.player == s.player && r.stats == s.stats && r.towers == s.towers && r.path == s.path
    ensures r.buildable == s.buildable && r.nextId >= s.nextId
  {
    var entry := s.wave.spawnQueue[0];
    var s1 := s.(wave := s.wave.(spawnQueue := s.wave.spawnQueue[1..], spawnCooldown := cooldown));
    var s2 := SpawnMonster(s1, cfg, entry);
    var (o, next) := RandomRange(s2.rng, SpawnIntervalMin, SpawnIntervalMax);
    s2.(rng := o, wave := s2.wave.(spawnCooldown := next))
  }

  /**
   * updateWave: only a running run advances. A spawning wave with an empty
   * queue finishes once the field is clear; otherwise its cooldown runs down
   * and spawns the head of the queue. An intermission runs down and starts
   * the next wave while the index is below TOTAL_WAVES.
   */
  function UpdateWave(s: State, cfg: Config, dt: real): (r: State)
    requires |s.path.cells| > 0
    ensures s.phase != Running ==> r == s
    ensures r.towers == s.towers && r.path == s.path && r.buildable == s.buildable && r.player.hp == s.player.hp
    ensures s.phase == Running && s.wave.status == Spawning && r.wave.status != Spawning ==>
              s.wave.spawnQueue == [] && s.monsters == []
    ensures s.phase == Running && s.wave.status == Spawning && s.wave.spawnQueue != [] ==>
              && r.wave.status == Spawning
              && ((r.wave.spawnQueue == s.wave.spawnQueue && r.monsters == s.monsters)
                  || (&& r.wave.spawnQueue == s.wave.spawnQueue[1..]
                      && |s.monsters| <= |r.monsters| <= |s.monsters| + 1
                      && r.monsters[..|s.monsters|] == s.monsters))
    ensures s.wave.status == Idle || s.wave.status == Over ==> r == s
    ensures s.phase == Running && s.wave.status == Spawning && s.wave.spawnQueue == [] && s.monsters == [] ==>
              && r.stats.waveScore == s.stats.waveScore + WaveScore
              && r.player.money == s.player.money + WaveMoney
              && (s.wave.index + 1 < TotalWaves(cfg) ==> r.wave.status == Intermission && r.wave.index == s.wave.index + 1)
              && (s.wave.index + 1 >= TotalWaves(cfg) ==> r.phase == Ended)
    ensures s.phase == Running && s.wave.status == Spawning && s.wave.spawnQueue == [] && s.monsters != [] ==> r == s
    ensures s.phase == Running && s.wave.status == Spawning && s.wave.spawnQueue != [] ==>
              (s.wave.spawnCooldown - dt <= 0.0 <==> r.wave.spawnQueue == s.wave.spawnQueue[1..])
    ensures s.phase == Running && s.wave.status == Spawning && s.wave.spawnQueue != [] && s.wave.spawnCooldown - dt <= 0.0 ==>
              && SpawnIntervalMin <= r.wave.spawnCooldown < SpawnIntervalMax
              && (EntryKind(s.wave.spawnQueue[0]) in cfg.monsters <==> |r.monsters| == |s.monsters| + 1)
    ensures s.phase == Running && s.wave.status == Spawning && s.wave.spawnQueue != [] && s.wave.spawnCooldown - dt > 0.0 ==>
              r == s.(wave := s.wave.(spawnCooldown := s.wave.spawnCooldown - dt))
    ensures s.phase == Running && s.wave.status == Intermission ==> r == RunIntermission(s, cfg, dt)
  {
    if s.phase != Running then s
    else if s.wave.status == Spawning then
      if |s.wave.spawnQueue| == 0 then
        if |s.monsters| == 0 then FinishWave(s, cfg) else s
      else
        var cooldown := s.wave.spawnCooldown - dt;
        if cooldown <= 0.0 then SpawnNext(s, cfg, cooldown)
        else s.(wave := s.wave.(spawnCooldown := cooldown))
    else if s.wave.status == Intermission then RunIntermission(s, cfg, dt)
    else s
  }

  /** The intermission runs down; at its end the next wave starts while the index is below TOTAL_WAVES. */
  function RunIntermission(s: State, cfg: Config, dt: real): (r: State)
    ensures r.towers == s.towers && r.path == s.path && r.buildable == s.buildable && r.player == s.player
    ensures r.monsters == s.monsters && r.nextId == s.nextId && r.wave.index == s.wave.index
    ensures s.wave.intermission - dt > 0.0 || s.wave.index >= TotalWaves(cfg) ==>
              r == s.(wave := s.wave.(intermission := s.wave.intermission - dt))
    ensures s.wave.intermission - dt <= 0.0 && s.wave.index < TotalWaves(cfg) && Definition(cfg, s.wave.index).Some? ==>
              && r.wave.status == Spawning && r.phase == s.phase && r.stats == s.stats
              && SpawnIntervalMin <= r.wave.spawnCooldown < SpawnIntervalMax
    ensures s.wave.intermission - dt <= 0.0 && s.wave.index < TotalWaves(cfg) && Definition(cfg, s.wave.index).None? ==>
              r == EndRun(s.(wave := s.wave.(intermission := s.wave.intermission - dt)))
    ensures ThreeWavesPerLevel(cfg) && s.wave.intermission - dt <= 0.0 && 0 <= s.wave.index < TotalWaves(cfg) ==>
              r.wave.status == Spawning
  {
    DefinitionWhenThree(cfg, s.wave.index);
    var left := s.wave.intermission - dt;
    var s1 := s.(wave := s.wave.(intermission := left));
    if left <= 0.0 && s.wave.index < TotalWaves(cfg) then StartWave(s1, cfg) else s1
  }

  // ---------------------------------------------------------------------------
  // startRun

  /** `!startTime`: no start time yet, or a start time of zero. */
  predicate Unstarted(t: Option<real>) {
    t.None? || t.value == 0.0
  }

  /**
   * startRun: a running run is left alone; otherwise the clock starts if it
   * has not, the run is running, and an idle wave starts.
   */
  function StartRun(s: State, cfg: Config, now: real): (r: State)
    ensures s.phase == Running ==> r == s
    ensures s.phase != Running && s.wave.status != Idle ==> r.phase == Running && r.wave == s.wave
    ensures s.phase != Running ==> r.stats.startTime == if Unstarted(s.stats.startTime) then Some(now) else s.stats.startTime
    ensures s.phase != Running && s.wave.status == Idle ==>
              var s1 := s.(phase := Running, stats := r.stats);
              r == StartWave(s1, cfg)
  {
    if s.phase == Running then s
    else
      var s1 := if Unstarted(s.stats.startTime) then s.(stats := s.stats.(startTime := Some(now))) else s;
      var s2 := s1.(phase := Running);
      if s2.wave.status == Idle then StartWave(s2, cfg) else s2
  }
}

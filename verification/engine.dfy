/**
 * The frame of frontend/src/game/game.js (update: clock, updateWave,
 * updateMonsters, updateTowers, clearDead) and the invariant every public
 * operation of the game keeps once reset has built a state.
 */
module Engine {
  import opened Wrappers
  import opened Corridor
  import opened GameState
  import WaveFlow
  import Combat
  import Actions
  import Towers
  import Waves
  import Path

  // ---------------------------------------------------------------------------
  // update

  /** What a frame needs of its state: a corridor, monsters on it, towers that can reload. */
  predicate Runnable(s: State) {
    |s.path.cells| > 0 && Combat.OnCorridor(s.monsters) && Combat.TowersArmed(s.towers)
  }

  /** `performance.now() - state.stats.startTime`, where a missing start time reads as 0. */
  function Elapsed(startTime: Option<real>, now: real): real {
    match startTime
    case None => now
    case Some(t) => now - t
  }

  /** A spawned monster stands on the first corridor cell. */
  lemma SpawnNextOnCorridor(s: State, cfg: Config, cooldown: real)
    requires |s.path.cells| > 0 && |s.wave.spawnQueue| > 0 && Combat.OnCorridor(s.monsters)
    ensures Combat.OnCorridor(WaveFlow.SpawnNext(s, cfg, cooldown).monsters)
  {
    var entry := s.wave.spawnQueue[0];
    var s1 := s.(wave := s.wave.(spawnQueue := s.wave.spawnQueue[1..], spawnCooldown := cooldown));
    var s2 := WaveFlow.SpawnMonster(s1, cfg, entry);
    assert WaveFlow.SpawnNext(s, cfg, cooldown).monsters == s2.monsters;
  }

  /** updateWave only ever adds monsters at the start of the corridor. */
  lemma UpdateWaveOnCorridor(s: State, cfg: Config, dt: real)
    requires |s.path.cells| > 0 && Combat.OnCorridor(s.monsters)
    ensures Combat.OnCorridor(WaveFlow.UpdateWave(s, cfg, dt).monsters)
  {
    if s.phase == Running && s.wave.status == Spawning && |s.wave.spawnQueue| > 0 {
      var cooldown := s.wave.spawnCooldown - dt;
      if cooldown <= 0.0 {
        SpawnNextOnCorridor(s, cfg, cooldown);
      }
    }
  }

  /**
   * The fight of one frame: monsters move, towers fire at the monsters alive
   * when they start, and the dead are cleared. A defeat inside the frame does
   * not stop the towers.
   */
  function Fight(s: State, dt: real): (r: State)
    requires Runnable(s)
    ensures forall j :: 0 <= j < |r.monsters| ==> r.monsters[j].hp > 0.0
    ensures r.player.hp <= s.player.hp
    ensures r.player.hp < s.player.hp && r.player.hp <= 0 ==> r.phase == Ended
    ensures r.path == s.path && r.buildable == s.buildable
    ensures |r.towers| == |s.towers|
    ensures forall q :: 0 <= q < |s.towers| ==> r.towers[q] == s.towers[q].(cooldown := r.towers[q].cooldown)
    ensures r.stats.killed + |r.monsters| + (s.player.hp - r.player.hp) == s.stats.killed + Combat.Alive(s.monsters)
  {
    var s1 := Combat.UpdateMonsters(s, dt);
    var s2 := Combat.UpdateTowers(s1, dt);
    Combat.ClearDeadKeepsLiving(s2.monsters);
    s2.(monsters := Combat.ClearDead(s2.monsters))
  }

  /**
   * update: nothing happens unless the run is running; otherwise the clock
   * is read, the wave advances and the fight is fought.
   */
  function Update(s: State, cfg: Config, dt: real, now: real): (r: State)
    requires Runnable(s)
    ensures s.phase != Running ==> r == s
    ensures s.phase == Running ==> forall j :: 0 <= j < |r.monsters| ==> r.monsters[j].hp > 0.0
    ensures r.player.hp <= s.player.hp
    ensures r.player.hp < s.player.hp && r.player.hp <= 0 ==> r.phase == Ended
    ensures r.path == s.path && r.buildable == s.buildable
    ensures |r.towers| == |s.towers|
    ensures forall q :: 0 <= q < |s.towers| ==> r.towers[q] == s.towers[q].(cooldown := r.towers[q].cooldown)
    ensures s.phase == Running ==>
              var w := WaveFlow.UpdateWave(s.(stats := s.stats.(elapsedMs := Elapsed(s.stats.startTime, now))), cfg, dt);
              r.stats.killed + |r.monsters| + (s.player.hp - r.player.hp) == w.stats.killed + Combat.Alive(w.monsters)
  {
    if s.phase != Running then s
    else
      var s0 := s.(stats := s.stats.(elapsedMs := Elapsed(s.stats.startTime, now)));
      UpdateWaveOnCorridor(s0, cfg, dt);
      Fight(WaveFlow.UpdateWave(s0, cfg, dt), dt)
  }

  // ---------------------------------------------------------------------------
  // The invariant

  /** The monster table pays no negative gold. */
  predicate ConfigOk(cfg: Config) {
    forall k :: k in cfg.monsters ==> cfg.monsters[k].gold >= 0.0
  }

  /** The corridor is a valid path and the buildable mask is its complement. */
  predicate Grounded(s: State) {
    && ValidPath(s.path.cells, s.path.start, s.path.end, GridWidth, GridHeight)
    && MaskMatches(s.buildable, s.path.cells)
  }

  /** Every tower keeps the price and attack speed of its kind. */
  predicate Stocked(towers: seq<Tower>) {
    forall k :: 0 <= k < |towers| ==>
      towers[k].baseCost == Towers.Base(towers[k].kind).cost && towers[k].attackSpeed == Towers.Base(towers[k].kind).attackSpeed
  }

  /** Monsters are on the corridor and worth non-negative gold. */
  predicate Field(s: State) {
    Combat.OnCorridor(s.monsters) && Combat.GoldNonNegative(s.monsters)
  }

  /** The wave index stays inside the wave table and queued bosses are scaled by 2 to 5. */
  predicate WaveOk(s: State, cfg: Config) {
    && Waves.WellScaled(s.wave.spawnQueue)
    && 0 <= s.wave.index
    && (TotalWaves(cfg) > 0 ==> s.wave.index < TotalWaves(cfg))
  }

  /** What holds of every state reachable from reset. */
  predicate Inv(s: State, cfg: Config) {
    && Grounded(s)
    && Actions.TowersPlaced(s)
    && Stocked(s.towers)
    && Field(s)
    && WaveOk(s, cfg)
    && s.player.money >= 0
    && (s.phase == Ended ==> s.summary.Some?)
  }

  lemma StockedArmed(towers: seq<Tower>)
    requires Stocked(towers)
    ensures Combat.TowersArmed(towers)
  {
    forall k | 0 <= k < |towers| ensures towers[k].attackSpeed > 0.0 {
      var b := Towers.Base(towers[k].kind);
    }
  }

  /** A state satisfying the invariant can run a frame. */
  lemma InvRunnable(s: State, cfg: Config)
    requires Inv(s, cfg)
    ensures Runnable(s)
  {
    StockedArmed(s.towers);
  }

  /** A fresh state around a valid corridor, with no towers, monsters or queue, satisfies the invariant. */
  lemma InitialInv(s: State, cfg: Config)
    requires ValidPath(s.path.cells, s.path.start, s.path.end, GridWidth, GridHeight)
    requires MaskMatches(s.buildable, s.path.cells)
    requires s.towers == [] && s.monsters == [] && s.player == Player(StartHp, StartMoney)
    requires s.wave == WaveState(0, Idle, [], 0.0, 0.0) && s.phase == Setup
    ensures Inv(s, cfg)
  {
  }

  /** A successful reset satisfies the invariant, whatever the rules. */
  lemma ResetEstablishes(seedInput: Option<string>, nowMs: nat, rules: Path.PathRules, cfg: Config)
    requires Path.UnitDirections(rules.weights)
    ensures ResetWith(seedInput, nowMs, rules).Ok? ==>
              Inv(ResetWith(seedInput, nowMs, rules).value, cfg)
  {
    var r := ResetWith(seedInput, nowMs, rules);
    if r.Ok? {
      InitialInv(r.value, cfg);
    }
  }

  // ---------------------------------------------------------------------------
  // The wave cycle keeps the invariant

  lemma FinishWaveKeeps(s: State, cfg: Config)
    requires Inv(s, cfg) && s.phase != Ended
    ensures Inv(WaveFlow.FinishWave(s, cfg), cfg)
  {
  }

  lemma StartWaveKeeps(s: State, cfg: Config)
    requires Inv(s, cfg) && s.phase != Ended
    ensures Inv(WaveFlow.StartWave(s, cfg), cfg)
    ensures WaveFlow.StartWave(s, cfg).player == s.player
  {
  }

  /** A spawned monster's gold is rounded from a non-negative amount, so it is not negative. */
  lemma SpawnNextKeeps(s: State, cfg: Config, cooldown: real)
    requires Inv(s, cfg) && ConfigOk(cfg) && |s.wave.spawnQueue| > 0
    ensures Inv(WaveFlow.SpawnNext(s, cfg, cooldown), cfg)
  {
    var entry := s.wave.spawnQueue[0];
    var s1 := s.(wave := s.wave.(spawnQueue := s.wave.spawnQueue[1..], spawnCooldown := cooldown));
    var s2 := WaveFlow.SpawnMonster(s1, cfg, entry);
    var r := WaveFlow.SpawnNext(s, cfg, cooldown);
    assert r.monsters == s2.monsters && r.nextId == s2.nextId && r.buildable == s.buildable;
    if WaveFlow.EntryKind(entry) in cfg.monsters {
      var t := cfg.monsters[WaveFlow.EntryKind(entry)];
      assert WaveFlow.EntryMultiplier(entry) >= 0.0;
      assert t.gold * GoldMultiplier * WaveFlow.EntryMultiplier(entry) >= 0.0 by {
        Towers.MulNonNeg(t.gold, GoldMultiplier);
        Towers.MulNonNeg(t.gold * GoldMultiplier, WaveFlow.EntryMultiplier(entry));
      }
    }
    SpawnNextOnCorridor(s, cfg, cooldown);
  }

  lemma QueueEmptyKeeps(s: State, cfg: Config, dt: real)
    requires Inv(s, cfg) && s.phase == Running && s.wave.status == Spawning && s.wave.spawnQueue == []
    ensures Inv(WaveFlow.UpdateWave(s, cfg, dt), cfg)
    ensures WaveFlow.UpdateWave(s, cfg, dt).player.money >= s.player.money
  {
    if |s.monsters| == 0 {
      FinishWaveKeeps(s, cfg);
    }
  }

  lemma QueueKeeps(s: State, cfg: Config, dt: real)
    requires Inv(s, cfg) && ConfigOk(cfg) && s.phase == Running && s.wave.status == Spawning && s.wave.spawnQueue != []
    ensures Inv(WaveFlow.UpdateWave(s, cfg, dt), cfg)
    ensures WaveFlow.UpdateWave(s, cfg, dt).player.money >= s.player.money
  {
    var cooldown := s.wave.spawnCooldown - dt;
    if cooldown <= 0.0 {
      SpawnNextKeeps(s, cfg, cooldown);
    } else {
      var r := WaveFlow.UpdateWave(s, cfg, dt);
      assert r == s.(wave := s.wave.(spawnCooldown := cooldown));
      FrameKeeps(s, r, cfg);
    }
  }

  /** The field, the towers and the corridor as they were, money not lower: the invariant rests on the wave and the phase. */
  lemma FrameKeeps(s: State, r: State, cfg: Config)
    requires Inv(s, cfg) && WaveOk(r, cfg) && (r.phase == Ended ==> r.summary.Some?)
    requires r.path == s.path && r.buildable == s.buildable && r.towers == s.towers && r.nextId == s.nextId
    requires r.monsters == s.monsters && r.player.money >= s.player.money
    ensures Inv(r, cfg)
  {
  }

  /** startWave keeps the wave index, and the queue it builds scales its boss by 2 to 5. */
  lemma StartWaveWaveOk(s: State, cfg: Config)
    requires WaveOk(s, cfg) && s.phase != Ended
    ensures WaveOk(WaveFlow.StartWave(s, cfg), cfg)
    ensures WaveFlow.StartWave(s, cfg).phase == Ended ==> WaveFlow.StartWave(s, cfg).summary.Some?
  {
  }

  /** The wave an intermission leads to keeps its index, and a queue only ever comes from startWave. */
  lemma IntermissionWaveOk(s: State, cfg: Config, dt: real)
    requires WaveOk(s, cfg) && s.phase == Running
    ensures WaveOk(WaveFlow.RunIntermission(s, cfg, dt), cfg)
    ensures WaveFlow.RunIntermission(s, cfg, dt).phase == Ended ==> WaveFlow.RunIntermission(s, cfg, dt).summary.Some?
  {
    var s1 := s.(wave := s.wave.(intermission := s.wave.intermission - dt));
    StartWaveWaveOk(s1, cfg);
  }

  lemma IntermissionKeeps(s: State, cfg: Config, dt: real)
    requires Inv(s, cfg) && s.phase == Running
    ensures Inv(WaveFlow.RunIntermission(s, cfg, dt), cfg)
    ensures WaveFlow.RunIntermission(s, cfg, dt).player.money >= s.player.money
  {
    IntermissionWaveOk(s, cfg, dt);
    FrameKeeps(s, WaveFlow.RunIntermission(s, cfg, dt), cfg);
  }

  lemma UpdateWaveKeeps(s: State, cfg: Config, dt: real)
    requires Inv(s, cfg) && ConfigOk(cfg)
    ensures Inv(WaveFlow.UpdateWave(s, cfg, dt), cfg)
    ensures WaveFlow.UpdateWave(s, cfg, dt).player.money >= s.player.money
  {
    if s.phase == Running {
      if s.wave.status == Spawning && s.wave.spawnQueue == [] {
        QueueEmptyKeeps(s, cfg, dt);
      } else if s.wave.status == Spawning {
        QueueKeeps(s, cfg, dt);
      } else if s.wave.status == Intermission {
        IntermissionKeeps(s, cfg, dt);
        assert WaveFlow.UpdateWave(s, cfg, dt) == WaveFlow.RunIntermission(s, cfg, dt);
      }
    }
  }

  // ---------------------------------------------------------------------------
  // The fight keeps the invariant

  lemma UpdateMonstersKeeps(s: State, dt: real, cfg: Config)
    requires Inv(s, cfg)
    ensures |s.path.cells| > 0
    ensures Inv(Combat.UpdateMonsters(s, dt), cfg)
  {
  }

  /** Towers that only reload stay where they were, with their price and speed. */
  lemma ReloadKeepsTowers(towers: seq<Tower>, after: seq<Tower>, mask: seq<seq<bool>>, nextId: nat)
    requires Actions.Placed(towers, mask, nextId) && Stocked(towers) && |after| == |towers|
    requires forall q :: 0 <= q < |towers| ==> after[q] == towers[q].(cooldown := after[q].cooldown)
    ensures Actions.Placed(after, mask, nextId) && Stocked(after)
  {
    assert forall q :: 0 <= q < |towers| ==>
             after[q].x == towers[q].x && after[q].y == towers[q].y && after[q].id == towers[q].id;
  }

  /** Hits leave monsters where they are and keep their gold. */
  lemma EffectKeepsField(b: Combat.Battle, r: Combat.Battle)
    requires Combat.Effect(b, r) && Combat.OnCorridor(b.monsters) && Combat.GoldNonNegative(b.monsters)
    ensures Combat.OnCorridor(r.monsters) && Combat.GoldNonNegative(r.monsters) && r.money >= b.money
  {
    assert forall j :: 0 <= j < |b.monsters| ==> r.monsters[j].pathIndex == b.monsters[j].pathIndex;
  }

  lemma UpdateTowersKeeps(s: State, dt: real, cfg: Config)
    requires Inv(s, cfg)
    ensures Combat.TowersArmed(s.towers)
    ensures Inv(Combat.UpdateTowers(s, dt), cfg)
    ensures Combat.UpdateTowers(s, dt).player.money >= s.player.money
  {
    StockedArmed(s.towers);
    var r := Combat.UpdateTowers(s, dt);
    ReloadKeepsTowers(s.towers, r.towers, s.buildable, s.nextId);
    EffectKeepsField(Combat.BattleOf(s), Combat.BattleOf(r));
  }

  lemma ClearDeadKeeps(ms: seq<Monster>)
    requires Combat.OnCorridor(ms) && Combat.GoldNonNegative(ms)
    ensures Combat.OnCorridor(Combat.ClearDead(ms)) && Combat.GoldNonNegative(Combat.ClearDead(ms))
  {
    var r := Combat.ClearDead(ms);
    Combat.ClearDeadInOrder(ms);
    forall q | 0 <= q < |r| ensures r[q].pathIndex >= 0 && 0.0 <= r[q].pathProgress < 1.0 && r[q].gold >= 0 {
      assert r[q] == ms[Combat.Living(ms, |ms|)[q]];
    }
  }

  lemma FightKeeps(s: State, dt: real, cfg: Config)
    requires Inv(s, cfg)
    ensures Runnable(s)
    ensures Inv(Fight(s, dt), cfg)
    ensures Fight(s, dt).player.money >= s.player.money
  {
    InvRunnable(s, cfg);
    UpdateMonstersKeeps(s, dt, cfg);
    var s1 := Combat.UpdateMonsters(s, dt);
    UpdateTowersKeeps(s1, dt, cfg);
    var s2 := Combat.UpdateTowers(s1, dt);
    ClearDeadKeeps(s2.monsters);
  }

  /** A frame keeps the invariant and never costs money. */
  lemma UpdateKeepsInvariant(s: State, cfg: Config, dt: real, now: real)
    requires Inv(s, cfg) && ConfigOk(cfg)
    ensures Runnable(s)
    ensures Inv(Update(s, cfg, dt, now), cfg)
    ensures Update(s, cfg, dt, now).player.money >= s.player.money
  {
    InvRunnable(s, cfg);
    if s.phase == Running {
      var s0 := s.(stats := s.stats.(elapsedMs := Elapsed(s.stats.startTime, now)));
      UpdateWaveKeeps(s0, cfg, dt);
      FightKeeps(WaveFlow.UpdateWave(s0, cfg, dt), dt, cfg);
    }
  }

  // ---------------------------------------------------------------------------
  // The other public operations keep the invariant

  lemma StartRunKeeps(s: State, cfg: Config, now: real)
    requires Inv(s, cfg)
    ensures Inv(WaveFlow.StartRun(s, cfg, now), cfg)
  {
    if s.phase != Running {
      var s1 := if WaveFlow.Unstarted(s.stats.startTime) then s.(stats := s.stats.(startTime := Some(now))) else s;
      var s2 := s1.(phase := Running);
      if s2.wave.status == Idle {
        StartWaveKeeps(s2, cfg);
      }
    }
  }

  lemma EndRunKeeps(s: State, cfg: Config)
    requires Inv(s, cfg)
    ensures Inv(EndRun(s), cfg)
  {
  }

  lemma HandleCellClickKeeps(s: State, cfg: Config, cell: Cell)
    requires Inv(s, cfg)
    ensures Inv(Actions.HandleCellClick(s, cell), cfg)
  {
    Actions.HandleCellClickKeepsPlacement(s, cell);
  }

  lemma SetNextTowerKeeps(s: State, cfg: Config, name: string)
    requires Inv(s, cfg)
    ensures Inv(Actions.SetNextTower(s, name), cfg)
  {
  }

  lemma UpgradeKeeps(s: State, cfg: Config)
    requires Inv(s, cfg)
    ensures Inv(Actions.UpgradeSelected(s), cfg)
  {
    Actions.UpgradeKeepsPlacement(s);
  }

  /** Removing a tower keeps every other tower's price and speed. */
  lemma RemoveStocked(towers: seq<Tower>, k: nat)
    requires Stocked(towers) && k < |towers|
    ensures Stocked(towers[..k] + towers[k + 1..])
  {
    var ts := towers[..k] + towers[k + 1..];
    assert forall j :: 0 <= j < |ts| ==> ts[j] == towers[if j < k then j else j + 1];
  }

  /** A tower's refund is not negative when its price is positive. */
  lemma RefundNonNegative(t: Tower)
    requires t.baseCost > 0
    ensures Actions.Refund(t) >= 0
  {
    assert Towers.TotalInvested(t.baseCost, t.level) >= 0;
  }

  /** A sale refunds a non-negative amount, since every tower's price is positive. */
  lemma SellKeeps(s: State, cfg: Config)
    requires Inv(s, cfg)
    ensures Inv(Actions.SellSelected(s), cfg)
  {
    Actions.SellKeepsPlacement(s);
    var index := Actions.SelectedIndex(s.towers, s.selection.towerId);
    if index.Some? {
      var k := index.value;
      RefundNonNegative(s.towers[k]);
      RemoveStocked(s.towers, k);
    }
  }
}

/**
 * The server's run validator, backend/guards/authority.py: the rules derived
 * from a ruleset, the payload precheck, and the per-wave replay of mobs,
 * kills, drops and the gold balance.
 */
module Authority {
  import opened Wrappers
  import opened Series

  /** Damage a mob may take beyond its hit points before the report is rejected. */
  const DamageOverflowMax: int := 999

  datatype MobRule = MobRule(hp: real, dropGold: real)

  /** The integer-converted entries of the ruleset's scoring table. */
  datatype Scoring = Scoring(stride: int, killUnit: int, hpMax: int)

  /**
   * The parts of a ruleset the rules are built from. A series entry that is
   * absent is an empty object, Some(RawConfig(None, None, None)); None is a
   * value that is not an object at all.
   */
  datatype Ruleset = Ruleset(
    scoring: Scoring,
    economyWaveCount: Option<RawValue>,
    capsWaveCount: Option<RawValue>,
    waveReward: Option<RawConfig>,
    maxMobsPerWave: Option<RawConfig>,
    maxDamagePerWave: Option<RawConfig>,
    maxSpikeRatio: real,
    mobs: map<string, MobRule>,
    bossMultiplier: real,
    waveHpStep: real,
    goldStart: int,
    goldTolerance: int)

  datatype AuthorityRules = AuthorityRules(
    waveCount: int,
    waveRewards: seq<int>,
    maxMobsPerWave: seq<int>,
    maxDamagePerWave: seq<int>,
    maxSpikeRatio: real,
    mobDefs: map<string, MobRule>,
    bossMultiplier: real,
    waveHpStep: real,
    goldStart: int,
    goldTolerance: int,
    scoring: Scoring,
    maxClientScore: int)

  function Sum(s: seq<int>): int {
    if |s| == 0 then 0 else Sum(s[..|s| - 1]) + s[|s| - 1]
  }

  /**
   * build_authority_rules: the wave count, then the three series of that
   * length; the client score cap is one stride per wave, one kill unit per
   * allowed mob, and the full hp bonus.
   */
  function BuildAuthorityRules(ruleset: Ruleset): (r: Result<AuthorityRules, string>)
    ensures ResolveWaveCount(ruleset.economyWaveCount, ruleset.capsWaveCount).Err? ==>
              r == Err(ResolveWaveCount(ruleset.economyWaveCount, ruleset.capsWaveCount).error)
    ensures r.Ok? <==> (ResolveWaveCount(ruleset.economyWaveCount, ruleset.capsWaveCount).Ok?
                        && ParseGrowthConfig(ruleset.waveReward, "economy.waveReward").Ok?
                        && ParseGrowthConfig(ruleset.maxMobsPerWave, "caps.maxMobsPerWave").Ok?
                        && ParseGrowthConfig(ruleset.maxDamagePerWave, "caps.maxDamagePerWave").Ok?)
    ensures r.Ok? ==> r.value.waveCount > 0
    ensures r.Ok? ==> |r.value.waveRewards| == |r.value.maxMobsPerWave| == |r.value.maxDamagePerWave| == r.value.waveCount
    ensures r.Ok? ==> r.value.maxClientScore == r.value.waveCount * ruleset.scoring.stride
                                              + Sum(r.value.maxMobsPerWave) * ruleset.scoring.killUnit
                                              + ruleset.scoring.hpMax
    ensures r.Ok? ==> r.value.mobDefs == ruleset.mobs && r.value.scoring == ruleset.scoring
                      && r.value.goldStart == ruleset.goldStart && r.value.goldTolerance == ruleset.goldTolerance
                      && r.value.bossMultiplier == ruleset.bossMultiplier && r.value.waveHpStep == ruleset.waveHpStep
  {
    var count := ResolveWaveCount(ruleset.economyWaveCount, ruleset.capsWaveCount);
    if count.Err? then Err(count.error)
    else
      var rewards := BuildSeriesPy(ruleset.waveReward, count.value, "economy.waveReward");
      if rewards.Err? then Err(rewards.error)
      else
        var mobs := BuildSeriesPy(ruleset.maxMobsPerWave, count.value, "caps.maxMobsPerWave");
        if mobs.Err? then Err(mobs.error)
        else
          var damage := BuildSeriesPy(ruleset.maxDamagePerWave, count.value, "caps.maxDamagePerWave");
          if damage.Err? then Err(damage.error)
          else
            var maxKills := Sum(mobs.value);
            Ok(AuthorityRules(
              count.value, rewards.value, mobs.value, damage.value, ruleset.maxSpikeRatio, ruleset.mobs,
              ruleset.bossMultiplier, ruleset.waveHpStep, ruleset.goldStart, ruleset.goldTolerance,
              ruleset.scoring,
              count.value * ruleset.scoring.stride + maxKills * ruleset.scoring.killUnit + ruleset.scoring.hpMax))
  }

  // ---------------------------------------------------------------------------
  // The submitted run

  datatype MobReport = MobReport(kind: string, isBoss: bool, damageTaken: real)

  datatype WaveReport = WaveReport(wave: int, mobs: seq<MobReport>)

  datatype RunPayload = RunPayload(
    rulesetVersion: string,
    progress: int,
    hpLeft: int,
    hpMax: int,
    clientScore: int,
    goldEnd: int,
    goldSpentTotal: int,
    waves: seq<WaveReport>)

  datatype Verdict = Verdict(ok: bool, reason: string, httpStatus: int,
                             totalKills: int, earnedDrops: int, earnedTotal: int)

  function Failure(reason: string, httpStatus: int): Verdict {
    Verdict(false, reason, httpStatus, 0, 0, 0)
  }

  /** What a run admits before any wave is replayed. */
  predicate Admissible(p: RunPayload, rules: AuthorityRules) {
    && p.rulesetVersion == "v1"
    && p.progress <= rules.waveCount
    && p.hpLeft <= p.hpMax <= rules.scoring.hpMax
    && p.progress <= |p.waves| <= rules.waveCount
    && (|p.waves| > p.progress ==> p.hpLeft == 0 && |p.waves| == p.progress + 1)
    && p.clientScore <= rules.maxClientScore
  }

  /**
   * validate_precheck: no verdict when the run is admissible, otherwise an
   * INVALID_PAYLOAD rejection with status 400 (the first failing check only
   * chooses the detail, which is not modelled).
   */
  function Precheck(p: RunPayload, rules: AuthorityRules): (r: Option<Verdict>)
    ensures r.None? <==> Admissible(p, rules)
    ensures r.Some? ==> r.value == Failure("INVALID_PAYLOAD", 400)
  {
    if p.rulesetVersion != "v1" then Some(Failure("INVALID_PAYLOAD", 400))
    else if p.progress > rules.waveCount then Some(Failure("INVALID_PAYLOAD", 400))
    else if p.hpLeft > p.hpMax then Some(Failure("INVALID_PAYLOAD", 400))
    else if p.hpMax > rules.scoring.hpMax then Some(Failure("INVALID_PAYLOAD", 400))
    else if |p.waves| < p.progress then Some(Failure("INVALID_PAYLOAD", 400))
    else if |p.waves| > rules.waveCount then Some(Failure("INVALID_PAYLOAD", 400))
    else if |p.waves| > p.progress && (p.hpLeft != 0 || |p.waves| != p.progress + 1) then
      Some(Failure("INVALID_PAYLOAD", 400))
    else if p.clientScore > rules.maxClientScore then Some(Failure("INVALID_PAYLOAD", 400))
    else None
  }

  /** After a passing precheck, every reported wave has a mob cap to compare with. */
  lemma PrecheckBoundsWaves(ruleset: Ruleset, p: RunPayload)
    requires BuildAuthorityRules(ruleset).Ok?
    requires Precheck(p, BuildAuthorityRules(ruleset).value).None?
    ensures |p.waves| <= |BuildAuthorityRules(ruleset).value.maxMobsPerWave|
  {
  }

  /** Precheck lets a negative progress through when no wave is reported. */
  lemma NegativeProgressPasses(rules: AuthorityRules)
    requires rules.scoring.hpMax >= 0 && rules.waveCount >= 0 && rules.maxClientScore >= 0
    ensures Precheck(RunPayload("v1", -1, 0, 0, 0, 0, 0, []), rules).None?
  {
  }

  // ---------------------------------------------------------------------------
  // Replaying the waves

  /** round_value(v, "half_up") of the server. */
  function HalfUp(v: real): int {
    Truncate(v + 0.5)
  }

  /** A mob's hit points: scaled by the wave step and, for a boss, the boss multiplier; then rounded. */
  function MobHp(rule: MobRule, index: nat, isBoss: bool, rules: AuthorityRules): int {
    var hp := rule.hp * (1.0 + index as real * rules.waveHpStep);
    HalfUp(if isBoss then hp * rules.bossMultiplier else hp)
  }

  /** The gold a killed mob drops; a boss's drop is scaled and rounded, any drop then truncated. */
  function MobDrop(rule: MobRule, isBoss: bool, rules: AuthorityRules): int {
    if isBoss then HalfUp(rule.dropGold * rules.bossMultiplier) else Truncate(rule.dropGold)
  }

  predicate MobAccepted(m: MobReport, index: nat, rules: AuthorityRules) {
    && m.kind in rules.mobDefs
    && m.damageTaken <= (MobHp(rules.mobDefs[m.kind], index, m.isBoss, rules) + DamageOverflowMax) as real
  }

  predicate Killed(m: MobReport, index: nat, rules: AuthorityRules)
    requires m.kind in rules.mobDefs
  {
    m.damageTaken >= MobHp(rules.mobDefs[m.kind], index, m.isBoss, rules) as real
  }

  predicate MobsAccepted(mobs: seq<MobReport>, index: nat, rules: AuthorityRules) {
    forall j :: 0 <= j < |mobs| ==> MobAccepted(mobs[j], index, rules)
  }

  predicate WaveAccepted(w: WaveReport, index: nat, rules: AuthorityRules)
    requires index < |rules.maxMobsPerWave|
  {
    w.wave == index + 1 && |w.mobs| <= rules.maxMobsPerWave[index] && MobsAccepted(w.mobs, index, rules)
  }

  predicate WavesAccepted(waves: seq<WaveReport>, rules: AuthorityRules) {
    && |waves| <= |rules.maxMobsPerWave|
    && forall i :: 0 <= i < |waves| ==> WaveAccepted(waves[i], i, rules)
  }

  /** Kills and drops of one wave's mobs. */
  function WaveKills(mobs: seq<MobReport>, index: nat, rules: AuthorityRules): (t: (nat, int))
    requires MobsAccepted(mobs, index, rules)
    ensures t.0 <= |mobs|
  {
    if |mobs| == 0 then (0, 0)
    else
      var t := WaveKills(mobs[..|mobs| - 1], index, rules);
      var m := mobs[|mobs| - 1];
      if Killed(m, index, rules) then (t.0 + 1, t.1 + MobDrop(rules.mobDefs[m.kind], m.isBoss, rules)) else t
  }

  function MobCount(waves: seq<WaveReport>): nat {
    if |waves| == 0 then 0 else MobCount(waves[..|waves| - 1]) + |waves[|waves| - 1].mobs|
  }

  /** Kills and drops of a run, wave by wave. */
  function RunKills(waves: seq<WaveReport>, rules: AuthorityRules): (t: (nat, int))
    requires WavesAccepted(waves, rules)
  {
    if |waves| == 0 then (0, 0)
    else
      var t := RunKills(waves[..|waves| - 1], rules);
      var w := WaveKills(waves[|waves| - 1].mobs, |waves| - 1, rules);
      (t.0 + w.0, t.1 + w.1)
  }

  /** No run counts more kills than it reports mobs. */
  lemma {:induction false} KillsAtMostMobs(waves: seq<WaveReport>, rules: AuthorityRules)
    requires WavesAccepted(waves, rules)
    ensures RunKills(waves, rules).0 <= MobCount(waves)
  {
    if |waves| > 0 {
      KillsAtMostMobs(waves[..|waves| - 1], rules);
    }
  }

  /** The prefix wave_rewards[:progress], with Python's reading of a negative bound. */
  function PrefixSlice(s: seq<int>, k: int): (r: seq<int>)
    ensures 0 <= k ==> r == s[..if k <= |s| then k else |s|]
    ensures k < 0 ==> r == s[..if |s| + k >= 0 then |s| + k else 0]
  {
    if k >= 0 then s[..if k <= |s| then k else |s|]
    else s[..if |s| + k >= 0 then |s| + k else 0]
  }

  function EarnedWave(rules: AuthorityRules, progress: int): int {
    Sum(PrefixSlice(rules.waveRewards, progress))
  }

  /** With progress -1 every wave reward but the last is credited. */
  lemma NegativeProgressRewards(rules: AuthorityRules)
    requires |rules.waveRewards| > 0
    ensures EarnedWave(rules, -1) == Sum(rules.waveRewards[..|rules.waveRewards| - 1])
  {
  }

  /** The reported gold end is within tolerance of what the run should have left. */
  predicate Balanced(p: RunPayload, rules: AuthorityRules)
    requires WavesAccepted(p.waves, rules)
  {
    var expected := rules.goldStart + EarnedWave(rules, p.progress) + RunKills(p.waves, rules).1 - p.goldSpentTotal;
    -rules.goldTolerance <= p.goldEnd - expected <= rules.goldTolerance
  }

  /** The outcome of replaying a run: a verdict, or the IndexError of a wave with no cap. */
  datatype Outcome = Returned(verdict: Verdict) | Raised(error: string)

  /** The mobs of one wave: their totals, or the first rejected mob's reason. */
  method ScanMobs(mobs: seq<MobReport>, index: nat, rules: AuthorityRules) returns (r: Result<(nat, int), string>)
    ensures r.Ok? <==> MobsAccepted(mobs, index, rules)
    ensures r.Ok? ==> r.value == WaveKills(mobs, index, rules)
    ensures r.Err? ==> exists j :: 0 <= j < |mobs| && MobsAccepted(mobs[..j], index, rules)
                                   && !MobAccepted(mobs[j], index, rules)
                                   && r.error == (if mobs[j].kind in rules.mobDefs then "DAMAGE_INVALID" else "MOB_INVALID")
  {
    var kills: nat := 0;
    var drops := 0;
    var j := 0;
    while j < |mobs|
      invariant 0 <= j <= |mobs|
      invariant MobsAccepted(mobs[..j], index, rules)
      invariant (kills, drops) == WaveKills(mobs[..j], index, rules)
    {
      var m := mobs[j];
      if m.kind !in rules.mobDefs {
        return Err("MOB_INVALID");
      }
      var rule := rules.mobDefs[m.kind];
      var hp := MobHp(rule, index, m.isBoss, rules);
      if m.damageTaken > (hp + DamageOverflowMax) as real {
        return Err("DAMAGE_INVALID");
      }
      assert mobs[..j + 1][..j] == mobs[..j];
      if m.damageTaken >= hp as real {
        kills := kills + 1;
        drops := drops + MobDrop(rule, m.isBoss, rules);
      }
      j := j + 1;
    }
    assert mobs[..j] == mobs;
    return Ok((kills, drops));
  }

  /** Wave i is the first one that may fail: every wave before it was accepted. */
  predicate AcceptedBefore(waves: seq<WaveReport>, i: int, rules: AuthorityRules) {
    0 <= i < |waves| && WavesAccepted(waves[..i], rules)
  }

  /** Accepting wave i extends the accepted prefix and its totals. */
  lemma AcceptNext(waves: seq<WaveReport>, i: nat, rules: AuthorityRules)
    requires AcceptedBefore(waves, i, rules) && i < |rules.maxMobsPerWave| && WaveAccepted(waves[i], i, rules)
    ensures WavesAccepted(waves[..i + 1], rules)
    ensures RunKills(waves[..i + 1], rules) ==
              (RunKills(waves[..i], rules).0 + WaveKills(waves[i].mobs, i, rules).0,
               RunKills(waves[..i], rules).1 + WaveKills(waves[i].mobs, i, rules).1)
  {
    assert waves[..i + 1][..i] == waves[..i];
  }

  /**
   * One wave of validate_authority's loop: numbered index+1, with a mob cap
   * (an IndexError when the caps run out), within it, and with every mob
   * accepted.
   */
  method ScanWave(w: WaveReport, i: nat, rules: AuthorityRules) returns (r: Result<(nat, int), Outcome>)
    ensures r.Ok? <==> i < |rules.maxMobsPerWave| && WaveAccepted(w, i, rules)
    ensures r.Ok? ==> i < |rules.maxMobsPerWave| && WaveAccepted(w, i, rules) && r.value == WaveKills(w.mobs, i, rules)
    ensures r.Err? && r.error.Raised? ==> w.wave == i + 1 && |rules.maxMobsPerWave| <= i
    ensures r.Err? && r.error.Returned? ==>
              && !r.error.verdict.ok && r.error.verdict.httpStatus == 200
              && r.error.verdict.reason in {"INVALID_PAYLOAD", "MOB_INVALID", "DAMAGE_INVALID"}
    ensures r == Err(Returned(Failure("INVALID_PAYLOAD", 200))) ==> w.wave != i + 1
    ensures r == Err(Returned(Failure("MOB_INVALID", 200))) || r == Err(Returned(Failure("DAMAGE_INVALID", 200))) ==>
              w.wave == i + 1 && i < |rules.maxMobsPerWave| && !WaveAccepted(w, i, rules)
  {
    if w.wave != i + 1 {
      return Err(Returned(Failure("INVALID_PAYLOAD", 200)));
    }
    if i >= |rules.maxMobsPerWave| {
      return Err(Raised("IndexError"));
    }
    if |w.mobs| > rules.maxMobsPerWave[i] {
      return Err(Returned(Failure("MOB_INVALID", 200)));
    }
    var scan := ScanMobs(w.mobs, i, rules);
    if scan.Err? {
      return Err(Returned(Failure(scan.error, 200)));
    }
    return Ok(scan.value);
  }

  /** The wave loop of validate_authority: it stops at the first failing wave with that wave's outcome. */
  method ScanWaves(waves: seq<WaveReport>, rules: AuthorityRules) returns (r: Result<(nat, int), Outcome>)
    ensures r.Ok? <==> WavesAccepted(waves, rules)
    ensures r.Ok? ==> r.value == RunKills(waves, rules)
    ensures r.Err? && r.error.Raised? ==> |rules.maxMobsPerWave| < |waves| && WavesAccepted(waves[..|rules.maxMobsPerWave|], rules)
    ensures r.Err? && r.error.Returned? ==>
              && !r.error.verdict.ok && r.error.verdict.httpStatus == 200
              && r.error.verdict.reason in {"INVALID_PAYLOAD", "MOB_INVALID", "DAMAGE_INVALID"}
    ensures r == Err(Returned(Failure("INVALID_PAYLOAD", 200))) ==>
              exists i :: AcceptedBefore(waves, i, rules) && waves[i].wave != i + 1
    ensures r == Err(Returned(Failure("MOB_INVALID", 200))) || r == Err(Returned(Failure("DAMAGE_INVALID", 200))) ==>
              exists i :: AcceptedBefore(waves, i, rules) && i < |rules.maxMobsPerWave|
                          && waves[i].wave == i + 1 && !WaveAccepted(waves[i], i, rules)
  {
    var kills: nat := 0;
    var drops := 0;
    var i := 0;
    while i < |waves|
      invariant 0 <= i <= |waves|
      invariant WavesAccepted(waves[..i], rules)
      invariant (kills, drops) == RunKills(waves[..i], rules)
    {
      assert AcceptedBefore(waves, i, rules);
      var one := ScanWave(waves[i], i, rules);
      if one.Err? {
        if one.error.Raised? {
          assert waves[..|rules.maxMobsPerWave|] == waves[..i];
        }
        return Err(one.error);
      }
      AcceptNext(waves, i, rules);
      kills := kills + one.value.0;
      drops := drops + one.value.1;
      i := i + 1;
    }
    assert waves[..i] == waves;
    return Ok((kills, drops));
  }

  /**
   * validate_authority: the wave loop, then the gold balance. The first
   * failure is the verdict.
   */
  method ValidateAuthority(p: RunPayload, rules: AuthorityRules) returns (r: Outcome)
    ensures r.Raised? ==> |rules.maxMobsPerWave| < |p.waves| && WavesAccepted(p.waves[..|rules.maxMobsPerWave|], rules)
    ensures (r.Returned? && r.verdict.ok) <==> (WavesAccepted(p.waves, rules) && Balanced(p, rules))
    ensures r.Returned? && r.verdict.ok ==>
              && r.verdict.reason == "NONE" && r.verdict.httpStatus == 200
              && r.verdict.totalKills == RunKills(p.waves, rules).0
              && r.verdict.earnedDrops == RunKills(p.waves, rules).1
              && r.verdict.earnedTotal == EarnedWave(rules, p.progress) + r.verdict.earnedDrops
    ensures r.Returned? && !r.verdict.ok ==> r.verdict.httpStatus == 200
    ensures r == Returned(Failure("INVALID_PAYLOAD", 200)) ==>
              exists i :: AcceptedBefore(p.waves, i, rules) && p.waves[i].wave != i + 1
    ensures r == Returned(Failure("MOB_INVALID", 200)) || r == Returned(Failure("DAMAGE_INVALID", 200)) ==>
              exists i :: AcceptedBefore(p.waves, i, rules) && i < |rules.maxMobsPerWave|
                          && p.waves[i].wave == i + 1 && !WaveAccepted(p.waves[i], i, rules)
    ensures r == Returned(Failure("ECONOMY_INVALID", 200)) ==> WavesAccepted(p.waves, rules) && !Balanced(p, rules)
    ensures r.Returned? ==> r.verdict.ok || r.verdict.reason in {"INVALID_PAYLOAD", "MOB_INVALID", "DAMAGE_INVALID", "ECONOMY_INVALID"}
  {
    var scan := ScanWaves(p.waves, rules);
    if scan.Err? {
      return scan.error;
    }
    var drops := scan.value.1;
    var earnedTotal := EarnedWave(rules, p.progress) + drops;
    var expected := rules.goldStart + earnedTotal - p.goldSpentTotal;
    var drift := p.goldEnd - expected;
    if (if drift < 0 then -drift else drift) > rules.goldTolerance {
      return Returned(Failure("ECONOMY_INVALID", 200));
    }
    return Returned(Verdict(true, "NONE", 200, scan.value.0, drops, earnedTotal));
  }
}

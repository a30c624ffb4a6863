/**
 * The run state of frontend/src/game/game.js as an immutable record, with
 * the transitions that set a run up and end it: reset, endRun.
 *
 * The module-level generator `rng` lives in the record as an Oracle; the
 * browser clock and crypto.randomUUID are parameters and a counter of fresh
 * ids. Effects, hover and logging are presentation and are not kept.
 */
module GameState {
  import opened Wrappers
  import opened Rng
  import opened Corridor
  import Path
  import Scoring
  import Towers
  import Waves
  import JsNumber
  import Decimal

  // ---------------------------------------------------------------------------
  // Constants of frontend/src/game/constants.js

  const GridWidth: int := 10
  const GridHeight: int := 10
  const StartHp: int := 10
  const StartMoney: int := 60
  const WaveMoney: int := 7
  const WaveScore: int := 15
  const LevelScore: int := 40
  const LeakPenalty: int := 20
  const GoldMultiplier: real := 0.7
  const SpawnIntervalMin: real := 0.6
  const SpawnIntervalMax: real := 1.2
  const IntermissionSeconds: real := 2.0

  /** A MONSTERS entry. */
  datatype MonsterTemplate = MonsterTemplate(key: string, hp: real, speed: real, gold: real, pts: int)

  /** The balance tables: WAVES (levels of three wave definitions) and MONSTERS. */
  datatype Config = Config(waves: seq<seq<seq<Waves.WaveEntry>>>, monsters: map<string, MonsterTemplate>)

  /** TOTAL_WAVES: three waves per level. */
  function TotalWaves(cfg: Config): int {
    |cfg.waves| * 3
  }

  // ---------------------------------------------------------------------------
  // The record

  datatype Phase = Setup | Running | Ended

  /** wave.state: "idle", "spawning", "intermission", "ended". */
  datatype WaveStatus = Idle | Spawning | Intermission | Over

  datatype WaveState = WaveState(index: int, status: WaveStatus, spawnQueue: seq<Waves.SpawnEntry>,
                                 spawnCooldown: real, intermission: real)

  datatype Point = Point(x: real, y: real)

  datatype Tower = Tower(
    id: nat,
    kind: Towers.TowerKind,
    level: int,
    baseCost: int,
    range: real,
    damage: real,
    attackSpeed: real,
    slowPct: real,
    slowDuration: real,
    splashRadius: real,
    x: int,
    y: int,
    cooldown: real)

  datatype Monster = Monster(
    id: nat,
    kind: string,
    maxHp: int,
    hp: real,
    baseSpeed: real,
    gold: int,
    pts: int,
    isBoss: bool,
    pathIndex: int,
    pathProgress: real,
    slowPct: real,
    slowRemaining: real,
    position: Point)

  datatype Player = Player(hp: int, money: int)

  /** The stats block; a start time of None is JavaScript's null. */
  datatype RunStats = RunStats(
    killScore: int,
    waveScore: int,
    levelScore: int,
    leakPenalty: int,
    killed: int,
    totalDamage: real,
    actionsCount: int,
    startTime: Option<real>,
    elapsedMs: real)

  datatype Selection = Selection(towerId: Option<nat>, buildIndex: int)

  datatype State = State(
    phase: Phase,
    seed: string,
    seedNumber: nat,
    width: int,
    height: int,
    path: Path.GeneratedPath,
    buildable: seq<seq<bool>>,
    towers: seq<Tower>,
    monsters: seq<Monster>,
    selection: Selection,
    player: Player,
    stats: RunStats,
    wave: WaveState,
    summary: Option<Scoring.Summary>,
    rng: Oracle,
    nextId: nat)

  // ---------------------------------------------------------------------------
  // endRun

  /** The summary endRun records: progress from the wave index, penalty from lost hp. */
  function RunSummary(s: State): (sum: Scoring.Summary)
    ensures sum.levelReached == Waves.LevelWave(s.wave.index).0
    ensures sum.waveReached == Waves.LevelWave(s.wave.index).1
    ensures sum.score == Scoring.ComputeScore(Scoring.ScoreParts(
              s.stats.killScore as real, s.stats.waveScore as real, s.stats.levelScore as real,
              JsNumber.MaxReal(0.0, (StartHp - s.player.hp) as real)))
    ensures sum.seed == s.seedNumber && sum.killed == s.stats.killed && sum.moneyLeft == s.player.money
  {
    var lw := Waves.LevelWave(s.wave.index);
    Scoring.BuildSummary(Scoring.SummaryInput(
      s.seedNumber, lw.0, lw.1,
      Scoring.ScoreParts(s.stats.killScore as real, s.stats.waveScore as real, s.stats.levelScore as real,
                         JsNumber.MaxReal(0.0, (StartHp - s.player.hp) as real)),
      s.stats.killed, s.stats.totalDamage, s.player.money, s.stats.elapsedMs, s.stats.actionsCount))
  }

  /**
   * endRun: a no-op on an ended run; otherwise the run and its wave end and
   * the summary of the state at that moment is recorded. Nothing else changes.
   */
  function EndRun(s: State): (r: State)
    ensures r.phase == Ended
    ensures s.phase == Ended ==> r == s
    ensures s.phase != Ended ==> && r.wave == s.wave.(status := Over) && r.summary == Some(RunSummary(s))
                                 && r.(phase := s.phase, wave := s.wave, summary := s.summary) == s
  {
    if s.phase == Ended then s
    else s.(phase := Ended, wave := s.wave.(status := Over), summary := Some(RunSummary(s)))
  }

  /** Ending twice is ending once. */
  lemma EndRunIdempotent(s: State)
    ensures EndRun(EndRun(s)) == EndRun(s)
  {
  }

  // ---------------------------------------------------------------------------
  // reset

  /** formatSeed: an empty or missing seed becomes the clock's milliseconds. */
  function FormatSeed(seedInput: Option<string>, nowMs: nat): (text: string)
    ensures |text| > 0
    ensures seedInput.Some? && seedInput.value != "" ==> text == seedInput.value
    ensures seedInput.None? || seedInput.value == "" ==> text == Decimal.NatToString(nowMs)
  {
    if seedInput.None? || seedInput.value == "" then Decimal.NatToString(nowMs) else seedInput.value
  }

  /** The buildable mask over the path's key set: row y, column x is free when "x,y" is not a key. */
  function BuildableMask(keys: set<string>, width: nat, height: nat): (m: seq<seq<bool>>)
    ensures |m| == height
    ensures forall y :: 0 <= y < height ==> |m[y]| == width
    ensures forall y, x :: 0 <= y < height && 0 <= x < width ==> (m[y][x] <==> KeyOf(Cell(x, y)) !in keys)
  {
    seq(height, y requires 0 <= y < height =>
      seq(width, x requires 0 <= x < width => KeyOf(Cell(x, y)) !in keys))
  }

  /** The seed's hash, as reset feeds it to createRng. */
  function SeedNumber(seedText: string): nat {
    HashSeed(Text(CodeUnits(seedText)))
  }

  /** The generator reset seeds: mulberry32 over the seed's hash. */
  function SeedOracle(seedText: string): Oracle {
    MulberryOracle(SeedNumber(seedText))
  }

  /** The freshly reset state around a generated corridor. */
  function Fresh(seedText: string, corridor: Path.GeneratedPath, rng: Oracle): State {
    State(Setup, seedText, SeedNumber(seedText), GridWidth, GridHeight, corridor,
          BuildableMask(BuildPathSet(corridor.cells), GridWidth, GridHeight), [], [], Selection(None, 0),
          Player(StartHp, StartMoney),
          RunStats(0, 0, 0, 0, 0, 0.0, 0, None, 0.0),
          WaveState(0, Idle, [], 0.0, 0.0), None, rng, 0)
  }

  /** The mask covers the grid, and a cell is buildable exactly when it is off the corridor. */
  predicate MaskMatches(mask: seq<seq<bool>>, cells: seq<Cell>) {
    && |mask| == GridHeight
    && (forall y :: 0 <= y < GridHeight ==> |mask[y]| == GridWidth)
    && forall y, x :: 0 <= y < GridHeight && 0 <= x < GridWidth ==> (mask[y][x] <==> Cell(x, y) !in cells)
  }

  /** The key-set mask of reset is the cell-level mask. */
  lemma FreshBuildable(seedText: string, corridor: Path.GeneratedPath, rng: Oracle)
    ensures MaskMatches(Fresh(seedText, corridor, rng).buildable, corridor.cells)
  {
    forall y, x | 0 <= y < GridHeight && 0 <= x < GridWidth {
      PathSetMembership(corridor.cells, Cell(x, y));
    }
  }

  /** reset with a given rule set for the corridor; it throws when no corridor is found. */
  function ResetWith(seedInput: Option<string>, nowMs: nat, rules: Path.PathRules): (r: Result<State, string>)
    requires Path.UnitDirections(rules.weights)
    ensures r.Ok? <==> Path.GeneratePath(SeedOracle(FormatSeed(seedInput, nowMs)), GridWidth, GridHeight, rules).1.Some?
    ensures r.Err? ==> r.error == "路径生成失败：请更换种子后重试"
    ensures r.Ok? ==> && r.value.phase == Setup && r.value.towers == [] && r.value.monsters == []
                      && r.value.player == Player(StartHp, StartMoney)
                      && r.value.wave == WaveState(0, Idle, [], 0.0, 0.0)
                      && r.value.summary.None? && r.value.stats.startTime.None?
                      && r.value.seed == FormatSeed(seedInput, nowMs)
                      && Path.Acceptable(r.value.path, GridWidth, GridHeight, rules)
    ensures r.Ok? ==> MaskMatches(r.value.buildable, r.value.path.cells)
  {
    var seedText := FormatSeed(seedInput, nowMs);
    var generated := Path.GeneratePath(SeedOracle(seedText), GridWidth, GridHeight, rules);
    if generated.1.None? then Err("路径生成失败：请更换种子后重试")
    else
      FreshBuildable(seedText, generated.1.value, generated.0);
      Ok(Fresh(seedText, generated.1.value, generated.0))
  }

  /** reset as written: generatePath with the default PATH_RULES. */
  function Reset(seedInput: Option<string>, nowMs: nat): (r: Result<State, string>)
    ensures r.Ok? ==> r.value.phase == Setup && r.value.player == Player(StartHp, StartMoney)
  {
    ResetWith(seedInput, nowMs, Path.DefaultPathRules)
  }

  /** With the default rules reset throws for every seed. */
  lemma ResetAlwaysThrows(seedInput: Option<string>, nowMs: nat)
    ensures Reset(seedInput, nowMs).Err?
  {
    Path.DefaultRulesNeverGenerate(SeedOracle(FormatSeed(seedInput, nowMs)));
  }

  /** reset with the 18-step rules. */
  function CorrectedReset(seedInput: Option<string>, nowMs: nat): (r: Result<State, string>)
    ensures r.Ok? ==> Path.Acceptable(r.value.path, GridWidth, GridHeight, Path.CorrectedPathRules)
  {
    ResetWith(seedInput, nowMs, Path.CorrectedPathRules)
  }

  /** With the 18-step rules reset succeeds for every seed, with a 19-cell corridor. */
  lemma CorrectedResetSucceeds(seedInput: Option<string>, nowMs: nat)
    ensures CorrectedReset(seedInput, nowMs).Ok?
    ensures |CorrectedReset(seedInput, nowMs).value.path.cells| == 19
  {
    var o := SeedOracle(FormatSeed(seedInput, nowMs));
    Path.CorrectedRulesGenerate(o);
  }
}

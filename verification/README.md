# Tower defense: a Dafny model of the game rules and the score server

This project models the deterministic core of a browser tower-defense game and of
its leaderboard backend, and proves properties of that model.

The game side covers:

- the seeded random source (FNV-1a seed hash, mulberry32 draws) and the draws built on it;
- the corridor generator: diagonal corners, the backtracking walk, the shuffled fast path and detour padding;
- the simulation: wave/level indexing, spawn queues with a boss, spawning, movement, leaks, targeting, damage, cooldowns, wave completion and the end of a run;
- the player actions: build, select, choose a tower kind, upgrade and sell;
- the score and the run summary;
- the progress codec and the leaderboard submission payload.

The server side covers:

- the rule-set growth series (browser and Python versions);
- the run validator: precheck, per-wave mob and damage checks, kill and drop accounting, and the gold balance;
- the sliding-window rate limiter, the progress parser, the per-level score cap and the limit clamp.

Every operation is a pure function over immutable records. The random source is an
`Oracle`: a stream of draws in [0, 1) and a position in it. Each consumer states how
far it advances the stream and what range its result lies in, so every property
proved over an arbitrary oracle holds for every seed. The mulberry32 stream itself
is one such oracle (`Rng.MulberryOracle`).

Modules follow the source files:

- `Rng` is `src/game/rng.js`.
- `Corridor` and `Path` are `frontend/src/game/path.js`.
- `Towers`, `Waves`, `GameState`, `WaveFlow`, `Combat`, `Actions` and `Engine` are `frontend/src/game/game.js`.
- `Scoring` is `frontend/src/game/scoring.js`.
- `Leaderboard` is `frontend/src/leaderboard.js`.
- `Series` is the two ruleset-series files.
- `Authority` is `backend/guards/authority.py`.
- `Server` is `backend/app.py`.
- `Decimal`, `JsNumber` and `Wrappers` are small shared helpers: digit strings, `Math.round` and JavaScript `%`, and `Option`/`Result`.

The engine keeps one state invariant, `Engine.Inv`. It holds after a successful
reset, and every public transition keeps it: `update`, `startRun`, `endRun`, the
cell click, the tower-kind choice, upgrade and sell. The invariant says:

- the corridor is a valid path;
- the buildable mask is exactly the complement of the corridor;
- towers stand on buildable cells, one per cell, with distinct ids and levels 1 to 3;
- tower costs and attack speeds come from the tower table;
- monsters are on the corridor with non-negative gold;
- boss multipliers are in [2, 5] and the wave index is in range;
- money is non-negative;
- an ended run has a summary.

## Model

| member | source | states |
|---|---|---|
| Rng.HashText | src/game/rng.js:5-11 | The string hash loop computes the 32-bit FNV-1a fold of the code units, starting from the offset basis |
| Rng.FnvFoldAppend | src/game/rng.js:7-10 | Hashing one more code unit is one xor-then-multiply step on the previous hash, so the loop's running value is the fold of the prefix |
| Rng.ToUint32 | src/game/rng.js:3 | `>>> 0` yields a value in [0, 2^32) that is congruent to the integer part modulo 2^32 |
| Rng.HashSeed | src/game/rng.js:1-12 | Every seed hashes to an unsigned 32-bit value |
| Rng.HashSeedOfEmptyText | src/game/rng.js:5-11 | The empty text hashes to the basis 2166136261, and null or undefined hash like the empty text |
| Rng.HashSeedOfInteger | src/game/rng.js:2-4 | A finite integer seed hashes to itself modulo 2^32 |
| Rng.CodeUnits | src/game/rng.js:8 | Strings are read as UTF-16 code units: one unit per character in the basic plane, and at most two per character otherwise |
| Rng.NextState | src/game/rng.js:17 | Each draw first advances the 32-bit state by 0x6d2b79f5, with wrap-around |
| Rng.AdvanceAdditive | src/game/rng.js:14-23 | Advancing the generator a steps and then b steps equals advancing it a+b steps, so a seed fixes the whole sequence |
| Rng.Scale | src/game/rng.js:21 | A draw is k / 2^32 for the mixed 32-bit value k, hence lies in [0, 1) |
| Rng.MulberryOracle | src/game/rng.js:14-23 | The i-th draw of the stream for a seed is the scaled mix of the state after i+1 increments, starting from the seed modulo 2^32 |
| Rng.Draw | src/game/rng.js:16-22 | Reading a draw consumes exactly one position of the stream |
| Rng.RandomInt | src/game/rng.js:25-27 | Consumes one draw; when min <= max the result is an integer in [min, max] |
| Rng.RandomRange | src/game/rng.js:29-31 | Consumes one draw; the result lies in [min, max) when min < max, and equals min when they are equal |
| Rng.SwapIndex | src/game/rng.js:35 | The swap partner of position i is an index in [0, i] |
| Rng.SwapPermutes | src/game/rng.js:36 | Swapping two entries keeps the multiset of the array |
| Rng.ShuffleDown | src/game/rng.js:34-37 | The Fisher-Yates loop from position i downwards yields a permutation and consumes exactly i draws |
| Rng.Shuffle | src/game/rng.js:33-39 | Shuffle returns a permutation of its input and draws exactly length-1 times (none for an empty array) |
| Rng.SumAppend | src/game/rng.js:42 | The weight total of a list grows by exactly the weight of an appended option |
| Rng.PickFrom | src/game/rng.js:44-48 | The scan stops at the first option whose running sum reaches the roll, or at the last option if none does |
| Rng.WeightedChoice | src/game/rng.js:41-49 | On a non-empty list, consumes one draw and returns an option index; every earlier running sum is below roll = draw * total, and the chosen one reaches it unless it is the last |
| Corridor.KeyOfInjective | frontend/src/game/path.js:4-6 | Distinct cells have distinct "x,y" keys, so the visited key set identifies cells exactly |
| Corridor.PathSetMembership | frontend/src/game/path.js:219-225 | buildPathSet contains the key of a cell if and only if the cell is on the corridor |
| Corridor.BuildPathSet | frontend/src/game/path.js:219-225 | Every corridor cell's key is in the built set |
| Corridor.AdjacentIsNeighbour | frontend/src/game/path.js:227-229 | isAdjacent holds exactly for the four orthogonal neighbours |
| Corridor.ChainParity | frontend/src/game/path.js:195-197 | Every chain of adjacent cells has cell count minus one congruent, modulo 2, to the Manhattan distance between its ends |
| Path.PickStartEnd | frontend/src/game/path.js:12-28 | The start and end are the two ends of one grid diagonal, in either order, and two draws are consumed |
| Path.DiagonalCorners | frontend/src/game/path.js:12-28 | On a non-empty grid both corners are in bounds and (w-1)+(h-1) apart |
| Path.Candidates | frontend/src/game/path.js:42-50 | Candidate cells are in bounds, unvisited and, for unit directions, adjacent to the current cell |
| Path.PickCandidate | frontend/src/game/path.js:53-57 | The weighted pick names one of the remaining candidates |
| Path.ExtendTrail | frontend/src/game/path.js:58-60 | Pushing an adjacent, unvisited, in-bounds cell keeps the trail a distinct in-bounds chain whose visited set is exactly its cells |
| Path.VisitShrinks | frontend/src/game/path.js:59 | Visiting a new in-bounds cell shrinks the set of unvisited grid cells, which bounds the depth of the search |
| Path.Step | frontend/src/game/path.js:34-69 | A failed step restores path and visited exactly; a successful one extends the given path to a trail ending at the target, within the length budget, and never through a prefix whose length plus remaining distance exceeds maxLen |
| Path.TryCandidates | frontend/src/game/path.js:52-66 | Trying candidates in weighted order either finds a strictly longer completion of the path or, after popping each failed branch, leaves path and visited as they were |
| Path.WalkPath | frontend/src/game/path.js:30-74 | A successful walk is a valid path from start to end with at most maxLen cells, visited equals its cell set, and every prefix respected the distance budget |
| Path.SpliceLaid | frontend/src/game/path.js:106-108 | Splicing two fresh adjacent cells after an interior index keeps a distinct in-bounds chain with the same ends, two cells longer, with visited extended by both |
| Path.ShiftedEdge | frontend/src/game/path.js:85-98 | Shifting an edge sideways by a unit offset gives a detour whose four steps are all adjacent |
| Path.TryOffsets | frontend/src/game/path.js:95-112 | Each try either inserts exactly two fresh cells right after the chosen index, adding exactly those two to the visited set and keeping the path laid out and its ends, or changes nothing |
| Path.InsertDetour | frontend/src/game/path.js:76-113 | Paths shorter than 3 are returned unchanged; otherwise the result is laid out with the same ends and is either unchanged or the path with one edge, after an index in [1, length-2], bent round two new cells that are exactly the cells added to the visited set |
| Path.PadDetours | frontend/src/game/path.js:160-164 | Repeated detours keep the path laid out with the same ends and never change the parity of its length; a path already long enough is untouched |
| Path.RepeatCount | frontend/src/game/path.js:138-143 | The move list holds exactly n copies of each pushed move |
| Path.TraceEnd | frontend/src/game/path.js:145-150 | Following sx-moves and sy-moves from a cell ends at the cell offset by the two counts |
| Path.TraceChain | frontend/src/game/path.js:147-150 | Following unit moves yields a chain of adjacent cells |
| Path.TraceRank | frontend/src/game/path.js:147-150 | Each monotone move raises the signed coordinate sum by one, so traced cells are ordered by index |
| Path.TraceBox | frontend/src/game/path.js:147-150 | A monotone trace stays inside the box spanned by its first and last cell |
| Path.RankedDistinct | frontend/src/game/path.js:147-150 | Cells with strictly increasing rank are pairwise distinct |
| Path.FastMovesCounts | frontend/src/game/path.js:135-143 | The fast-path move list holds exactly \|dx\| x-moves and \|dy\| y-moves toward the end, and nothing else |
| Path.FastMovesShape | frontend/src/game/path.js:144 | Any permutation of the fast moves is a list of monotone moves with the same counts |
| Path.FastPathValid | frontend/src/game/path.js:135-150 | Walking any permutation of the fast moves from start gives a valid path to end with exactly manhattan+1 cells |
| Path.FastAttempt | frontend/src/game/path.js:135-172 | A fast-path result is a valid path between the chosen corners with exactly targetSteps+1 cells |
| Path.FinishWalk | frontend/src/game/path.js:187-213 | A walked path is returned only when it is valid and has between minLen+1 and maxLen+1 cells; with fixed length and odd gap it is always rejected |
| Path.WalkAttempt | frontend/src/game/path.js:174-213 | A walk attempt that succeeds returns a valid path between the corners with between minLen+1 and maxLen+1 cells |
| Path.Attempt | frontend/src/game/path.js:128-213 | Every successful attempt yields an acceptable corridor: valid, between diagonal corners, within the length window |
| Path.Retry | frontend/src/game/path.js:124-127 | No attempt budget means no result |
| Path.RetryKeeps | frontend/src/game/path.js:124-216 | If every attempt's result is acceptable, so is the retry loop's result |
| Path.RetryFails | frontend/src/game/path.js:124-216 | If every attempt fails, the retry loop returns null |
| Path.GeneratePath | frontend/src/game/path.js:115-217 | A non-null corridor is a valid path between diagonal corners with between minLen+1 and maxLen+1 cells; a non-positive retry budget gives null |
| Path.OddGap | frontend/src/game/path.js:195 | A path whose parity matches the corner distance leaves an odd gap to a target of the other parity |
| Path.ParityBlocksWalk | frontend/src/game/path.js:195-197 | With a fixed length of the wrong parity for the corners, every walk attempt is rejected |
| Path.ParityBlocksAttempt | frontend/src/game/path.js:130-197 | With a fixed length of the wrong parity, both the fast path and the walk are excluded, so every attempt fails |
| Path.DefaultRulesNeverGenerate | frontend/src/game/path.js:115-216 | With the shipped rules (19/19 on 10x10) generatePath returns null for every random stream |
| Path.CorrectedAttempt | frontend/src/game/path.js:135-158 | With target 18 on 10x10 the first attempt takes the fast path and returns 19 cells |
| Path.CorrectedRulesGenerate | frontend/src/game/path.js:115-158 | With rules 18/18 on 10x10 generatePath always returns a 19-cell corridor |
| Towers.Base | frontend/src/game/constants.js:135-173 | Every tower kind has a positive cost and attack speed |
| Towers.IndexOfKind | frontend/src/game/game.js:726 | The build-order index is the position of the kind's name, or -1 exactly when no kind has that name |
| Towers.TowerStats | frontend/src/game/game.js:55-84 | Damage scales by upgradeDamagePct per level; ice slow and bomb splash grow per level but are capped; everything else is copied from the base |
| Towers.StatsGrowWithLevel | frontend/src/game/game.js:55-84 | For levels at least 1, damage, slow and splash never decrease with level, and level 1 has the base damage |
| Towers.UpgradeCost | frontend/src/game/game.js:86-90 | An upgrade cost exists only for levels 2 and 3 and is twice the base cost |
| Towers.TotalInvested | frontend/src/game/game.js:92-97 | A tower has cost baseCost, 3*baseCost or 5*baseCost by level 1, 2 or 3 |
| Towers.UpgradeAddsCost | frontend/src/game/game.js:92-97 | Each upgrade adds exactly its upgrade cost to the total invested |
| Waves.LevelWaveInverse | frontend/src/game/game.js:28-37 | For a non-negative index, getLevelWave gives level >= 1 and wave in 1..3, and getWaveIndex maps it back |
| Waves.WaveIndexInverse | frontend/src/game/game.js:28-37 | getLevelWave inverts getWaveIndex for every level >= 1 and wave in 1..3 |
| Waves.NegativeIndexExample | frontend/src/game/game.js:32-37 | With JavaScript's truncating remainder, index -1 maps to level 0, wave 0, which does not map back |
| Waves.Repeat | frontend/src/game/game.js:42-44 | The inner loop pushes exactly max(count, 0) tokens of the entry's type |
| Waves.ExpandWaveCounts | frontend/src/game/game.js:39-47 | The expanded list holds, for each type, the sum of its entries' counts, and its length is the total count |
| Waves.UniqueKinds | frontend/src/game/game.js:216 | The boss candidates are the definition's types, each once, ordered by where each type first appears |
| Waves.FirstAt | frontend/src/game/game.js:216 | The first entry naming a type is found: it names the type and no earlier entry does |
| Waves.HundredthsInRange | frontend/src/game/game.js:219 | Rounding a multiplier in [2, 5) to hundredths stays in [2, 5] |
| Waves.BuildBoss | frontend/src/game/game.js:215-225 | An empty definition gives no boss and no draws; otherwise two draws give a boss of a type in the definition with multiplier in [2, 5] |
| Waves.ShuffledPlain | frontend/src/game/game.js:234-235 | A shuffled plain queue holds no boss |
| Waves.SpliceScaled | frontend/src/game/game.js:242 | Inserting a well-scaled boss keeps every boss multiplier in [2, 5] |
| Waves.SpliceBoss | frontend/src/game/game.js:237-243 | Inserting the boss at an index at least floor(0.35*n) gives a queue whose other entries are exactly the expanded plain tokens |
| Waves.BuildQueue | frontend/src/game/game.js:234-243 | A non-empty definition yields total-count+1 entries: a permutation of the plain tokens plus one boss of a listed type at an index in [floor(0.35*n), n] |
| GameState.RunSummary | frontend/src/game/game.js:198-211 | The summary records the level and wave reached, the seed number, kills and money, and the clamped score with hp penalty max(0, 10 - hp) |
| GameState.EndRun | frontend/src/game/game.js:193-213 | Ending a running run marks phase and wave as ended and stores its summary, touching nothing else; an ended run is left as it is |
| GameState.EndRunIdempotent | frontend/src/game/game.js:193-196 | Ending a run twice is the same as ending it once |
| GameState.FormatSeed | frontend/src/game/game.js:21-26 | A non-empty seed text is kept; an empty or missing one becomes the decimal clock value |
| GameState.BuildableMask | frontend/src/game/game.js:127-130 | The mask has the grid's shape and a cell is buildable exactly when its key is not a corridor key |
| GameState.FreshBuildable | frontend/src/game/game.js:127-139 | In the fresh state a cell is buildable exactly when it is not on the corridor |
| GameState.ResetWith | frontend/src/game/game.js:112-175 | Reset succeeds exactly when the seeded corridor generator returns a path, and then yields the setup state with starting hp and money, no towers or monsters, and an idle wave 0 |
| GameState.Reset | frontend/src/game/game.js:112-125 | A successful reset starts in setup with the starting hp and money |
| GameState.ResetAlwaysThrows | frontend/src/game/game.js:117-125 | With the shipped path rules, reset throws for every seed and every clock value |
| GameState.CorrectedReset | frontend/src/game/game.js:112-171 | With the corrected path rules, any corridor reset produces is acceptable for those rules |
| GameState.CorrectedResetSucceeds | frontend/src/game/game.js:112-171 | With the corrected path rules, reset succeeds for every seed with a 19-cell corridor |
| WaveFlow.Definition | frontend/src/game/game.js:228-229 | A wave definition exists exactly when the level and wave of the index fall inside the table |
| WaveFlow.DefinitionExists | frontend/src/game/game.js:228-233 | With three waves per level, a definition exists exactly for indices in [0, TOTAL_WAVES) |
| WaveFlow.DefinitionWhenThree | frontend/src/game/game.js:228-233 | With three waves per level, a definition exists exactly for indices in [0, TOTAL_WAVES) |
| WaveFlow.StartWave | frontend/src/game/game.js:227-252 | Without a definition the run ends in victory; otherwise the wave starts spawning a queue of the counted tokens plus one boss, with a spawn cooldown in [0.6, 1.2), and nothing else changes |
| WaveFlow.FinishWave | frontend/src/game/game.js:254-271 | A finished wave adds 15 wave score and 7 money, plus 40 level score on a level's third wave; it then either moves to the next index in intermission or, past the last wave, ends the run on the same index |
| WaveFlow.LastWaveVictory | frontend/src/game/game.js:262-267 | Finishing the last wave ends the run with a summary reporting the last level and wave 3, and awards the level bonus |
| WaveFlow.SpawnMonster | frontend/src/game/game.js:273-300 | An unknown type spawns nothing; otherwise exactly one monster is appended at the corridor start, with rounded scaled hp and gold, scaled speed and a fresh id |
| WaveFlow.BossOutranksPlain | frontend/src/game/game.js:276-290 | A boss multiplier of at least 2 never gives less hp or gold than the plain monster |
| WaveFlow.SpawnNext | frontend/src/game/game.js:436-451 | Spawning shifts exactly the queue head, appends at most one monster (one exactly when its type is known) and redraws the cooldown in [0.6, 1.2) |
| WaveFlow.UpdateWave | frontend/src/game/game.js:427-460 | Only a running run changes. A spawning wave with an empty queue and a clear field finishes: +15 wave score, +7 money, then an intermission at the next index or the end of the run. With monsters left it waits unchanged. With a queue, an expired cooldown shifts off exactly the head, spawns it exactly when its type is known and redraws the cooldown in [0.6, 1.2); otherwise only the cooldown counts down by dt. An intermission runs RunIntermission; idle and ended waves are unchanged |
| WaveFlow.RunIntermission | frontend/src/game/game.js:452-458 | The timer counts down by dt and nothing else changes until it expires below TOTAL_WAVES. Then a wave with a definition starts spawning with a cooldown in [0.6, 1.2), and a missing definition ends the run; with three waves per level every index in [0, TOTAL_WAVES) starts a wave |
| WaveFlow.StartRun | frontend/src/game/game.js:180-191 | A running run is unchanged; otherwise the run becomes running, the start time is set only if unset, and an idle wave is started |
| Combat.SumHpUpdate | frontend/src/game/game.js:305-306 | Changing one monster's hp changes the hp total by exactly that difference |
| Combat.AliveUpdate | frontend/src/game/game.js:307-308 | Changing one monster changes the living count by the change in its own liveness |
| Combat.Hit | frontend/src/game/game.js:302-305 | A dead monster takes nothing; a living one loses min(hp, amount), so its hp becomes max(hp - amount, 0), and nothing else about it changes |
| Combat.ApplyDamage | frontend/src/game/game.js:302-319 | Damage to a dead monster does nothing; otherwise only the hit monster changes, as Hit says, total damage plus remaining hp is conserved, and a kill is credited exactly once with its points and gold |
| Combat.Advance | frontend/src/game/game.js:340-350 | Movement never goes backwards, may cross several cells in one tick, keeps progress in [0, 1) before the end, conserves distance, and stops with zero progress at the last cell |
| Combat.SlowTick | frontend/src/game/game.js:330-336 | An expired slow resets slow percentage and time to 0; a running slow counts down; nothing else changes |
| Combat.Moved | frontend/src/game/game.js:330-350 | A living monster's slow ticks first and it then advances by base speed times (1 - remaining slow) times dt; only its slow and place change, never backwards, with progress kept in [0, 1) |
| Combat.FrameOne | frontend/src/game/game.js:329-367 | A dead monster is skipped; a living one is moved, and either leaks with hp 0 on reaching the last cell or keeps its hp before it; id and gold never change |
| Combat.UpdateMonster | frontend/src/game/game.js:328-368 | Only monster i changes, to its frame; a dead monster leaves the whole state unchanged; a leak costs exactly 1 player hp and 20 leak penalty, ending the run at hp <= 0 |
| Combat.UpdateMonstersFrom | frontend/src/game/game.js:328-368 | Monsters before i are untouched and every later one becomes its own frame; lost player hp equals the number of leaks and the leak penalty grows by 20 per leak |
| Combat.UpdateMonsters | frontend/src/game/game.js:325-369 | Every monster is framed: the dead are untouched, the living have their slow ticked and advance by the slowed distance, and survivors keep their hp before the last cell; player hp falls by exactly the number of leaks, the leak penalty grows by 20 per leak, and an hp drop to 0 or below ends the run |
| Combat.Living | frontend/src/game/game.js:372 | The living snapshot lists increasing positions of monsters with positive hp; LivingComplete shows that it misses none |
| Combat.LivingComplete | frontend/src/game/game.js:372 | Every monster with positive hp is in the living snapshot |
| Combat.Within | frontend/src/game/game.js:377-379 | The in-range filter keeps, in order, exactly the listed monsters within the radius |
| Combat.WithinSame | frontend/src/game/game.js:377-379 | The in-range filter is the same for two lists that differ only in hit points and slows |
| Combat.FirstBest | frontend/src/game/game.js:384-385 | The chosen entry has maximal pathIndex+pathProgress, and every earlier entry has strictly less |
| Combat.FirstBestSame | frontend/src/game/game.js:384-385 | The front-most choice is the same for two lists that differ only in hit points and slows |
| Combat.FirstBestAmong | frontend/src/game/game.js:384-385 | Over an increasing index list, the target has maximal priority and wins ties against later monsters, as the stable sort does |
| Combat.Chill | frontend/src/game/game.js:404-410 | An ice hit sets slow percentage and duration to the larger of old and new |
| Combat.EffectChain | frontend/src/game/game.js:373-420 | Damage conservation, kill accounting and gold growth compose across tower shots |
| Combat.SumHpNoHeal | frontend/src/game/game.js:305 | If no monster gains hp, the hp total does not rise |
| Combat.EffectNoHealDamage | frontend/src/game/game.js:304-306 | Under an accounted hit that heals no one, the damage total never falls |
| Combat.ApplyDamageEffect | frontend/src/game/game.js:302-319 | A single hit conserves damage plus hp, accounts every kill, and never lowers money when gold is non-negative |
| Combat.Splash | frontend/src/game/game.js:389-393 | Every snapshot monster within the splash radius of the target takes the hit, as Hit says, exactly once; no other monster changes; the battle accounting is kept |
| Combat.TargetOf | frontend/src/game/game.js:376-385 | A tower finds no target exactly when no living monster is in range; otherwise it targets the in-range living monster furthest along the corridor, the first one on ties |
| Combat.Strike | frontend/src/game/game.js:385-410 | Arrow and ice shots damage only the target; a bomb hits every snapshot monster within the splash radius of the target, as Hit says, and changes no other; an ice hit leaves the target at least as slowed as the tower's slow |
| Combat.StrikeNoHeal | frontend/src/game/game.js:302-306 | A shot of non-negative damage raises no monster's hp |
| Combat.Aim | frontend/src/game/game.js:374-385 | A tower only aims at an existing monster |
| Combat.AimSame | frontend/src/game/game.js:374-385 | Changing only hit points and slows changes no tower's aim: range and priority read only places |
| Combat.AimsSame | frontend/src/game/game.js:374-385 | The same for every tower of a list |
| Combat.Reload | frontend/src/game/game.js:374-386 | After a tick every cooldown is non-negative: it counts down, or resets to 1/attackSpeed after a shot and to 0 when nothing was in range |
| Combat.FireTower | frontend/src/game/game.js:373-420 | A tower that does not shoot leaves the battle unchanged; one that shoots strikes its target; only its cooldown changes, as Reload says for its aim; a tower of non-negative damage heals no one |
| Combat.UpdateTowersFrom | frontend/src/game/game.js:373-420 | Processing the remaining towers changes only their cooldowns, all non-negative afterwards, and keeps the battle accounting; TowersReload, NoShotNoChange and TowersNoHeal say what each tower does |
| Combat.TowersReload | frontend/src/game/game.js:374-386 | Every remaining tower's cooldown is Reload of its aim at the monsters as they were before any of these towers fired |
| Combat.NoShotNoChange | frontend/src/game/game.js:374-382 | When none of the remaining towers has a target, the battle is unchanged |
| Combat.TowersNoHeal | frontend/src/game/game.js:302-306 | Towers of non-negative damage raise no monster's hp |
| Combat.UpdateTowers | frontend/src/game/game.js:371-421 | Towers change only in cooldown; monsters change only in hp and slow; damage plus hp is conserved, kills are counted once, and only money and the kill statistics change elsewhere; UpdateTowersByAim ties every cooldown and the no-shot case to the aims |
| Combat.UpdateTowersByAim | frontend/src/game/game.js:371-421 | Against the frame's living snapshot, every tower's cooldown is Reload of its own aim; when no tower has a target, monsters, player and statistics are unchanged; towers of non-negative damage raise no monster's hp and never lower the damage total |
| Combat.LoneBombHitsAll | frontend/src/game/game.js:371-393 | In a frame with a single bomb tower, a tower that does not shoot changes no monster, and one that shoots hits every living monster within splash reach of its target |
| Combat.ClearDead | frontend/src/game/game.js:423-425 | As many monsters remain as were alive; ClearDeadInOrder and ClearDeadKeepsLiving say which |
| Combat.ClearDeadInOrder | frontend/src/game/game.js:423-425 | The k-th survivor is the monster at the k-th position of the living snapshot, so the living monsters remain in their order |
| Combat.ClearDeadKeepsLiving | frontend/src/game/game.js:423-425 | Every survivor has positive hp and every monster with positive hp survives |
| Combat.LivingOfPrefix | frontend/src/game/game.js:372 | The snapshot of the first n monsters does not depend on the monsters after them |
| Actions.TowerAt | frontend/src/game/game.js:678-680 | The lookup finds the first tower on the cell, or none exactly when no tower stands there |
| Actions.SelectedIndex | frontend/src/game/game.js:769-771 | The selection resolves to the first tower with the selected id, or none exactly when no tower has it |
| Actions.NewTower | frontend/src/game/game.js:698-715 | A new tower is level 1 with the kind's cost and stats, zero cooldown, the given cell and id |
| Actions.SelectedKind | frontend/src/game/game.js:691-693 | A non-negative build index selects arrow, ice or bomb cyclically |
| Actions.HandleCellClick | frontend/src/game/game.js:676-722 | Clicking a tower only selects it; an off-mask cell or too little money changes nothing; otherwise exactly the cost is paid (money stays non-negative), a level-1 tower is appended, the selection is cleared and one action is counted |
| Actions.SetNextTower | frontend/src/game/game.js:724-729 | A known kind name becomes the next build choice; any other name changes nothing |
| Actions.UpgradeSelected | frontend/src/game/game.js:736-765 | No selection, level 3 or too little money changes nothing; otherwise 2*baseCost is paid, the level rises by one to at most 3 and the damage is recomputed for it |
| Actions.Refund | frontend/src/game/game.js:777 | The refund is the floor of half the total invested |
| Actions.SellSelected | frontend/src/game/game.js:767-783 | No selection changes nothing; otherwise exactly the selected tower is removed, its refund paid, the selection cleared and one action counted |
| Actions.AppendPlaced | frontend/src/game/game.js:698-715 | A new level-1 tower on a free buildable cell with the next id keeps towers placed |
| Actions.RemovePlaced | frontend/src/game/game.js:779 | Removing any tower keeps the others placed |
| Actions.ReplacePlaced | frontend/src/game/game.js:755-762 | Changing a tower in place, with the same cell and id and a level in 1..3, keeps towers placed |
| Actions.HandleCellClickKeepsPlacement | frontend/src/game/game.js:676-719 | After a click, towers still stand on buildable cells, one per cell, with distinct ids below the next id |
| Actions.UpgradeKeepsPlacement | frontend/src/game/game.js:736-765 | An upgrade keeps towers placed and their levels within 1..3 |
| Actions.SellKeepsPlacement | frontend/src/game/game.js:767-783 | A sale keeps towers placed |
| Actions.NewestSelected | frontend/src/game/game.js:769-771 | The tower carrying the next id is found at the end of the list |
| Actions.ClickSelectsNewest | frontend/src/game/game.js:678-683 | Clicking the cell of the tower just built finds and selects that tower |
| Actions.BuildThenSell | frontend/src/game/game.js:676-783 | Building on a free cell, clicking it and selling restores the tower list and leaves the player cost - floor(cost/2) poorer |
| Engine.Fight | frontend/src/game/game.js:467-469 | After movement, shots and clearing, every remaining monster is alive, player hp never rises, an hp drop to 0 or below ends the run, towers change only in cooldown, and every monster alive at the start is now counted once: killed, still on the field, or leaked for one player hp |
| Engine.Update | frontend/src/game/game.js:462-477 | A run that is not running is unchanged; otherwise the frame leaves only living monsters, never raises hp, ends the run when hp drops to 0 or below, keeps corridor, mask and tower set, and accounts for every monster alive after the wave step as killed, remaining or leaked |
| Engine.StockedArmed | frontend/src/game/constants.js:135-173 | Towers built from the table have positive attack speed |
| Engine.InvRunnable | frontend/src/game/game.js:462-469 | The invariant provides everything a frame needs: a corridor, monsters on it and armed towers |
| Engine.InitialInv | frontend/src/game/game.js:132-171 | The fresh state satisfies the invariant |
| Engine.ResetEstablishes | frontend/src/game/game.js:112-171 | Every successful reset produces a state satisfying the invariant |
| Engine.FinishWaveKeeps | frontend/src/game/game.js:254-271 | Finishing a wave keeps the invariant |
| Engine.StartWaveKeeps | frontend/src/game/game.js:227-252 | Starting a wave keeps the invariant and does not touch the player |
| Engine.SpawnNextKeeps | frontend/src/game/game.js:436-451 | Spawning a monster keeps the invariant |
| Engine.QueueEmptyKeeps | frontend/src/game/game.js:429-435 | Waiting on an empty queue, or finishing the wave, keeps the invariant and never lowers money |
| Engine.QueueKeeps | frontend/src/game/game.js:436-451 | A spawn tick keeps the invariant and never lowers money |
| Engine.FrameKeeps | frontend/src/game/game.js:427-460 | A wave step that touches no tower, monster or corridor and does not lower money keeps the invariant |
| Engine.StartWaveWaveOk | frontend/src/game/game.js:227-252 | Starting a wave keeps boss multipliers and the wave index in range, and a victory has a summary |
| Engine.IntermissionWaveOk | frontend/src/game/game.js:452-458 | An intermission tick keeps boss multipliers and the wave index in range |
| Engine.IntermissionKeeps | frontend/src/game/game.js:452-458 | An intermission tick keeps the invariant and never lowers money |
| Engine.UpdateWaveKeeps | frontend/src/game/game.js:427-460 | updateWave keeps the invariant and never lowers money |
| Engine.UpdateMonstersKeeps | frontend/src/game/game.js:325-369 | Moving monsters keeps the invariant |
| Engine.ReloadKeepsTowers | frontend/src/game/game.js:374-386 | Changing only cooldowns keeps towers placed and stocked |
| Engine.EffectKeepsField | frontend/src/game/game.js:302-319 | Shots keep monsters on the corridor with non-negative gold, and never lower money |
| Engine.UpdateTowersKeeps | frontend/src/game/game.js:371-421 | Tower fire keeps the invariant and never lowers money |
| Engine.ClearDeadKeeps | frontend/src/game/game.js:423-425 | Clearing dead monsters keeps the survivors on the corridor with non-negative gold |
| Engine.FightKeeps | frontend/src/game/game.js:467-469 | Movement, fire and clearing together keep the invariant and never lower money |
| Engine.UpdateKeepsInvariant | frontend/src/game/game.js:462-477 | A frame of update keeps the invariant and never lowers money |
| Engine.StartRunKeeps | frontend/src/game/game.js:180-191 | startRun keeps the invariant |
| Engine.EndRunKeeps | frontend/src/game/game.js:193-213 | endRun keeps the invariant |
| Engine.HandleCellClickKeeps | frontend/src/game/game.js:676-722 | A cell click keeps the invariant |
| Engine.SetNextTowerKeeps | frontend/src/game/game.js:724-729 | Choosing the next tower kind keeps the invariant |
| Engine.UpgradeKeeps | frontend/src/game/game.js:736-765 | An upgrade keeps the invariant |
| Engine.RemoveStocked | frontend/src/game/game.js:779 | Removing a tower keeps the remaining towers' table values |
| Engine.RefundNonNegative | frontend/src/game/game.js:777 | A tower with positive cost refunds a non-negative amount |
| Engine.SellKeeps | frontend/src/game/game.js:767-783 | A sale keeps the invariant |
| Scoring.ComputeScore | frontend/src/game/scoring.js:3-11 | The score is never negative: 0 for a negative net, else the floor of the net |
| Scoring.ComputeScoreExact | frontend/src/game/scoring.js:9-10 | For integer parts with a non-negative net, the score is kill + wave + level - max(0, penalty) |
| Scoring.NegativePenaltyIgnored | frontend/src/game/scoring.js:9 | A negative hp penalty scores like a zero penalty |
| Scoring.ScoreOfLargerNet | frontend/src/game/scoring.js:9-10 | A larger net never scores less |
| Scoring.ComputeScoreMonotone | frontend/src/game/scoring.js:9-10 | The score is non-decreasing in kill, wave and level score and non-increasing in the hp penalty |
| Scoring.BuildSummary | frontend/src/game/scoring.js:13-43 | The summary score is computeScore of the same parts, the duration is max(0, floor(durationMs)), and the other fields are copied |
| Leaderboard.BuildProgress | frontend/src/leaderboard.js:3-11 | Fails exactly when level or wave is not a positive integer, reporting invalid_level before invalid_wave |
| Leaderboard.MatchProgress | frontend/src/leaderboard.js:1 | A match splits the text into two non-empty digit runs around one dot |
| Leaderboard.MatchOfJoin | frontend/src/leaderboard.js:1 | Two digit runs joined by a dot always match, giving back the two runs |
| Leaderboard.ParseProgress | frontend/src/leaderboard.js:13-22 | Fails on a non-string or text that is not "digits.digits"; on a match it succeeds exactly when both numbers are positive and then returns those two numbers |
| Leaderboard.ParseBuildProgress | frontend/src/leaderboard.js:3-22 | Parsing the progress built from positive integers gives them back |
| Leaderboard.LeadingZeroAccepted | frontend/src/leaderboard.js:17-18 | A leading zero does not change the parse, so parsing then building canonicalises |
| Leaderboard.LeadingZeroExample | frontend/src/leaderboard.js:13-22 | "04.1" parses as level 4, wave 1, which renders as "4.1" |
| Leaderboard.RejectedExamples | frontend/src/leaderboard.js:13-22 | "0.1", "x.y" and a non-string all parse to null |
| Leaderboard.FormatProgressLabel | frontend/src/leaderboard.js:24-30 | Valid progress renders as the level and wave label, other non-empty text as "进度 " plus the text, and empty or missing progress as "—" |
| Leaderboard.LeadingSpaces | frontend/src/leaderboard.js:46 | Counts exactly the leading JavaScript whitespace |
| Leaderboard.TrimEnd | frontend/src/leaderboard.js:46 | Drops exactly the trailing JavaScript whitespace |
| Leaderboard.Trim | frontend/src/leaderboard.js:46 | The trimmed name is the middle of the text, starts and ends with non-space, and only whitespace was cut around it |
| Leaderboard.BuildSubmissionPayload | frontend/src/leaderboard.js:32-50 | Fails with summary_required, submission_id_required, invalid_score in that order, then with exactly buildProgress's error; otherwise a payload with the id, the floored score, the trimmed name and the built progress |
| Leaderboard.PayloadProgressParses | frontend/src/leaderboard.js:43-48 | The progress of every payload parses back to the summary's level and wave |
| Series.Ceil | frontend/src/game/ruleset-series.js:2 | Ceil gives the least integer not below the value |
| Series.Truncate | backend/ruleset_series.py:24 | Python's int() truncates toward zero |
| Series.RoundJs | frontend/src/game/ruleset-series.js:1-6 | ceil, floor and half_up (floor of v+0.5) round as named; any other mode fails with the mode in the message |
| Series.RoundPy | backend/ruleset_series.py:18-25 | floor and ceil round down and up to an integer; half_up is int(v+0.5): round-half-up from -0.5 upwards and toward zero below; any other mode fails with the mode in the message |
| Series.RoundingAgrees | backend/ruleset_series.py:18-25 | For values at least -0.5 both sides accept the same modes and round alike |
| Series.RoundingDiffersBelowHalf | backend/ruleset_series.py:24 | Below -0.5 the two half_up roundings differ, e.g. -0.7 gives -1 in the browser and 0 on the server |
| Series.RoundMonotone | frontend/src/game/ruleset-series.js:1-6 | Every valid rounding mode is monotone |
| Series.BuildSeries | frontend/src/game/ruleset-series.js:8-30 | Rejects a missing config, a negative base, a negative growth rate, a non-positive or fractional count, and an unknown mode; a series has count elements, element i the rounded base*(1+g)^i |
| Series.TermsGrow | frontend/src/game/ruleset-series.js:26 | With non-negative base and growth, the first term is the base and terms never decrease |
| Series.TermsChain | frontend/src/game/ruleset-series.js:26 | Terms are ordered by index |
| Series.SeriesShape | frontend/src/game/ruleset-series.js:24-29 | A built series is non-negative and non-decreasing and starts at the rounded base |
| Series.ToFloat | backend/ruleset_series.py:38-42 | float() passes numbers, reads digit strings, and fails on null and other values |
| Series.ParseGrowthConfig | backend/ruleset_series.py:28-47 | Succeeds exactly when the object has base and growth rate, a valid round mode (default half_up), numeric non-negative values; errors in the source's order |
| Series.ToInt | backend/ruleset_series.py:57-60 | int() truncates numbers, reads digit strings and fails otherwise |
| Series.ResolveWaveCount | backend/ruleset_series.py:50-63 | Succeeds exactly when both counts are present, equal as raw values, integer-convertible and positive |
| Series.GenerateSeries | backend/ruleset_series.py:66-69 | One value per index of range(count), value i the Python-rounded base*(1+g)^i |
| Series.BuildSeriesPy | backend/ruleset_series.py:72-74 | Succeeds exactly when the config parses, with max(count, 0) values |
| Series.ServerSeriesMatchesBrowser | backend/ruleset_series.py:66-74 | For the same valid numbers and mode, the server series equals the browser series |
| Authority.BuildAuthorityRules | backend/guards/authority.py:39-70 | Succeeds exactly when the wave count resolves and all three series parse; then all series have wave_count entries and max_client_score = wave_count*STRIDE + sum(max mobs)*KILL_UNIT + HP_MAX |
| Authority.Precheck | backend/guards/authority.py:77-125 | Passes exactly when version, progress, hp, wave-count and client-score bounds hold; every rejection is INVALID_PAYLOAD with status 400 |
| Authority.PrecheckBoundsWaves | backend/guards/authority.py:96-109 | After a passed precheck, no wave index exceeds the max-mobs list |
| Authority.NegativeProgressPasses | backend/guards/authority.py:110-117 | Progress -1 with no waves and hpLeft 0 passes the precheck |
| Authority.WaveKills | backend/guards/authority.py:172-174 | A wave's kills never exceed its mobs |
| Authority.KillsAtMostMobs | backend/guards/authority.py:172-174 | Total kills never exceed the number of mobs submitted |
| Authority.PrefixSlice | backend/guards/authority.py:177 | Python slicing `[:k]` takes the first k items, or all but the last -k for negative k |
| Authority.NegativeProgressRewards | backend/guards/authority.py:177 | With progress -1 the wave reward sums every reward but the last |
| Authority.ScanMobs | backend/guards/authority.py:153-174 | Accepts exactly when every mob has a known type and damage within rounded hp + 999, returning the kill and drop totals; otherwise names the first bad mob |
| Authority.AcceptNext | backend/guards/authority.py:133-174 | Accepting one more wave adds its kills and drops to the running totals |
| Authority.ScanWave | backend/guards/authority.py:134-174 | A wave is accepted exactly when its number, mob count and mobs are valid; an index beyond the cap list raises |
| Authority.ScanWaves | backend/guards/authority.py:133-174 | Accepts exactly when every wave is accepted, returning the total kills and drops; a rejection names the first failing wave |
| Authority.ValidateAuthority | backend/guards/authority.py:128-196 | Returns ok exactly when every wave is accepted and the gold balance is within tolerance, with kills, drops and earned total; otherwise INVALID_PAYLOAD, MOB_INVALID, DAMAGE_INVALID or ECONOMY_INVALID for the first failure |
| Server.EvictExpired | backend/app.py:42-44 | Eviction drops exactly the leading entries at or below the threshold |
| Server.Allow | backend/app.py:39-48 | Allows exactly when fewer than max_requests entries survive eviction, appending now only then; other keys' buckets are untouched |
| Server.SortedEvictionComplete | backend/app.py:40-44 | On a sorted bucket, front-only eviction removes every expired entry |
| Server.AllowedBucket | backend/app.py:42-48 | A sorted, bounded bucket stays sorted, bounded by max_requests and inside the window after a call |
| Server.AllowKeepsConsistent | backend/app.py:39-48 | With a non-decreasing clock every bucket stays sorted and at most max_requests long, and the caller's bucket holds only entries in the current window |
| Server.ParseProgress | backend/app.py:83-91 | Succeeds exactly when the text, less one trailing newline, is "digits.digits" with both parts positive |
| Server.ParsersAgree | backend/app.py:83-91 | Without a trailing newline the server parser and the browser parser accept the same text and agree on the result |
| Server.TrailingNewlineAccepted | backend/app.py:19 | The server accepts "1.2\n", which the browser rejects |
| Server.ParsesRendered | backend/app.py:83-91 | The server parses every rendered progress back to its level and wave |
| Server.ValidateScore | backend/app.py:153-165 | Accepts exactly when the progress parses, its level has a cap and the score is within it; otherwise invalid_progress for a bad progress, unknown_level for a level without a cap, and score_too_high for a score above the cap, each with status 400 |
| Server.WaveIgnored | backend/app.py:155-163 | The wave part of the progress never changes the verdict |
| Server.ClampLimit | backend/app.py:230 | The leaderboard limit is clamped into [1, 100], keeping values already inside |
| Decimal.ValueOfNatToString | frontend/src/leaderboard.js:10-18 | Reading back the decimal rendering of a number gives the number |
| Decimal.NatToStringOfValue | frontend/src/leaderboard.js:17-18 | A canonical digit string is the rendering of its value |
| JsNumber.Round | frontend/src/game/game.js:287-290 | Math.round rounds half up |
| JsNumber.Rem | frontend/src/game/game.js:35 | JavaScript's % keeps the sign of the dividend |

## Left out

- Rendering, the canvas, effect lifetimes, log and message callbacks, `getState`, `setHoverCell` (a hover cell has no effect on the rules), and the DOM wiring of both `main.js` files.
- Clocks and ids: `Date.now`, `performance.now` and `crypto.randomUUID` become parameters. Monster and tower ids come from a counter in the state.
- The "game not initialized" throw: every operation here takes a state, so there is no uninitialised game.
- `Math.hypot` range tests are squared-distance comparisons. Speeds, positions, damage and multipliers are exact reals, not IEEE-754 doubles.
- The boss multiplier's `toFixed(2)` is any value in [2, 5]. `Waves.HundredthsInRange` shows that rounding keeps it there.
- The monster `scale` field only affects drawing.
- `WAVES` and `MONSTERS` are a configuration parameter. `ConfigOk` asks only that monster gold is non-negative.
- The string spawn-entry branch at frontend/src/game/game.js:440-441: queues built by `startWave` hold only records.
- The mulberry32 state is a 32-bit value. The source keeps a growing double that wraps to the same bits while below 2^53.
- Number() on very long digit runs loses precision in JavaScript. Here it is an unbounded natural number.
- Python's `\d` also matches non-ASCII digits. Only ASCII digits are modelled.
- float() and int() on strings: only plain digit strings are modelled. Signs, decimal points, spaces, exponents, "inf" and "nan" are not.
- max_damage_per_wave and max_spike_ratio are computed but never enforced. They are carried but not checked.
- `_failure` details, logging, FastAPI routes, CORS, SQLite, `compute_rank`, `get_client_ip`, `load_caps` and `submit` are web or database plumbing.
- Engine.Update: does not state that elapsedMs is set from the clock; the clock is a parameter and the field feeds only the summary duration.
- Engine.Update: states its monster accounting against the state after the wave step, not the state before it. UpdateWave states that step.
- Series.BuildSeriesPy: does not restate element values. GenerateSeries states them.
- Series.BuildSeries: takes base and growthRate as numbers. The source coerces them with Number(), so strings, null (0) and undefined (NaN, rejected) are not modelled.
- Leaderboard.BuildSubmissionPayload: takes the score as a finite number. The source coerces it with Number() and rejects non-finite values as invalid_score; that coercion and that check are not modelled.
- Path.PickCandidate: states only that the index is in range. Rng.WeightedChoice states which candidate is picked.
- Path.Retry: states only that a zero budget gives no result. RetryKeeps and RetryFails state the loop's meaning.
- Combat.Aim: states only that the index is valid. TargetOf and FireTower state the choice.
- GameState.Reset: states the starting values only. ResetAlwaysThrows states that it never succeeds with the shipped rules.
- Actions.UpgradeSelected: states the recomputed damage only. Towers.TowerStats states slow and splash.
- Walking a corridor requires unit step directions; the shipped weights are unit steps, and the source does not check them.
- The corridor generator requires a grid of at least one cell on each side.

Observed but not changed, because the source behaves this way:

- `startRun` on an ended run makes it running again, with the wave still marked ended.
- In the frame where the player's hp reaches 0, the remaining monsters still move and the towers still fire, so hp can go below 0.
- The living snapshot is taken once per frame, so a tower may aim at a monster an earlier tower killed. The damage is then ignored.

## Findings

| source | as written | input that shows it | evidently intended | confidence | as-written member | corrected member |
|---|---|---|---|---|---|---|
| frontend/src/game/path.js:195-197 | With the shipped rules minLen = maxLen = 19 on the 10x10 grid, the corners are 18 apart. The fast path needs the same parity and is skipped. Every walked path has an odd cell count, but 20 cells are required, so every attempt is rejected and generatePath returns null | any seed, e.g. the stream of hashSeed("mvp-seed-1"): all 160 attempts fail | a 19-cell corridor, which the path test expects; rules 18/18 give exactly that | not executed | Path.DefaultRulesNeverGenerate | Path.CorrectedRulesGenerate |
| frontend/src/game/game.js:117-125 | reset passes the shipped path rules, gets null, and throws for every seed | any seed text and clock value | reset builds a fresh game | not executed | GameState.ResetAlwaysThrows | GameState.CorrectedResetSucceeds |

/**
 * The end-of-run score and summary of frontend/src/game/scoring.js.
 */
module Scoring {
  import JsNumber

  /** The four score components; JavaScript numbers, so reals. */
  datatype ScoreParts = ScoreParts(killScore: real, waveScore: real, levelScore: real, hpPenalty: real)

  /** The total before flooring: the three scores minus the non-negative part of the penalty. */
  function Net(p: ScoreParts): real {
    p.killScore + p.waveScore + p.levelScore - JsNumber.MaxReal(0.0, p.hpPenalty)
  }

  /** computeScore: the net total, floored and clamped at zero. */
  function ComputeScore(p: ScoreParts): (score: int)
    ensures score >= 0
    ensures Net(p) < 0.0 ==> score == 0
    ensures Net(p) >= 0.0 ==> score as real <= Net(p) < score as real + 1.0
  {
    var total := Net(p).Floor;
    if total > 0 then total else 0
  }

  /** With integer components and a non-negative net, the score is exactly that net. */
  lemma ComputeScoreExact(kill: int, wave: int, level: int, penalty: int)
    requires kill + wave + level - (if penalty > 0 then penalty else 0) >= 0
    ensures ComputeScore(ScoreParts(kill as real, wave as real, level as real, penalty as real))
            == kill + wave + level - (if penalty > 0 then penalty else 0)
  {
    var p := ScoreParts(kill as real, wave as real, level as real, penalty as real);
    var n := kill + wave + level - (if penalty > 0 then penalty else 0);
    assert Net(p) == n as real;
  }

  /** A negative penalty counts as no penalty. */
  lemma NegativePenaltyIgnored(p: ScoreParts)
    requires p.hpPenalty < 0.0
    ensures ComputeScore(p) == ComputeScore(p.(hpPenalty := 0.0))
  {
    assert Net(p) == Net(p.(hpPenalty := 0.0));
  }

  /** Flooring and clamping keep the order of the totals. */
  lemma ScoreOfLargerNet(p: ScoreParts, q: ScoreParts)
    requires Net(p) <= Net(q)
    ensures ComputeScore(p) <= ComputeScore(q)
  {
    if Net(p) >= 0.0 {
      assert (Net(p).Floor as real) <= Net(q);
    }
  }

  /** More kill, wave or level score never lowers the score; more penalty never raises it. */
  lemma ComputeScoreMonotone(p: ScoreParts, q: ScoreParts)
    requires p.killScore <= q.killScore && p.waveScore <= q.waveScore && p.levelScore <= q.levelScore
    requires q.hpPenalty <= p.hpPenalty
    ensures ComputeScore(p) <= ComputeScore(q)
  {
    assert Net(p) <= Net(q);
    ScoreOfLargerNet(p, q);
  }

  /** The inputs of buildSummary. */
  datatype SummaryInput = SummaryInput(
    seed: int,
    levelReached: int,
    waveReached: int,
    parts: ScoreParts,
    killed: int,
    totalDamage: real,
    moneyLeft: int,
    durationMs: real,
    actionsCount: int)

  /** The summary record of a finished run. */
  datatype Summary = Summary(
    seed: int,
    levelReached: int,
    waveReached: int,
    score: int,
    killed: int,
    totalDamage: real,
    moneyLeft: int,
    durationMs: int,
    actionsCount: int)

  /** buildSummary: score from computeScore, duration floored and clamped at zero, the rest copied. */
  function BuildSummary(input: SummaryInput): (s: Summary)
    ensures s.score == ComputeScore(input.parts)
    ensures s.durationMs >= 0
    ensures input.durationMs >= 0.0 ==> s.durationMs as real <= input.durationMs < s.durationMs as real + 1.0
    ensures input.durationMs < 0.0 ==> s.durationMs == 0
    ensures s.seed == input.seed && s.levelReached == input.levelReached && s.waveReached == input.waveReached
    ensures s.killed == input.killed && s.totalDamage == input.totalDamage
    ensures s.moneyLeft == input.moneyLeft && s.actionsCount == input.actionsCount
  {
    var d := input.durationMs.Floor;
    Summary(input.seed, input.levelReached, input.waveReached, ComputeScore(input.parts),
            input.killed, input.totalDamage, input.moneyLeft, if d > 0 then d else 0, input.actionsCount)
  }
}

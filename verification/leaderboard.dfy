/**
 * The progress codec and the submission payload of frontend/src/leaderboard.js.
 *
 * Progress is the string "level.wave". JavaScript numbers are modelled as
 * finite reals; a JavaScript value that may be absent is an Option.
 */
module Leaderboard {
  import opened Wrappers
  import opened Decimal

  predicate IsInteger(r: real) {
    r == r.Floor as real
  }

  /** The digits of a positive integral number, as a template literal prints them. */
  function NumberText(r: real): string
    requires IsInteger(r) && r > 0.0
  {
    NatToString(r.Floor)
  }

  /** buildProgress: "level.wave"; a bad level is reported before a bad wave. */
  function BuildProgress(level: real, wave: real): (r: Result<string, string>)
    ensures r.Err? <==> !(IsInteger(level) && level > 0.0 && IsInteger(wave) && wave > 0.0)
    ensures r.Err? ==> r.error == (if !(IsInteger(level) && level > 0.0) then "invalid_level" else "invalid_wave")
  {
    if !IsInteger(level) || level <= 0.0 then Err("invalid_level")
    else if !IsInteger(wave) || wave <= 0.0 then Err("invalid_wave")
    else Ok(NumberText(level) + "." + NumberText(wave))
  }

  datatype Progress = Progress(level: nat, wave: nat)

  /** Position of the first '.', or the length when there is none. */
  function DotIndex(s: string): (k: nat)
    ensures k <= |s|
    ensures forall i :: 0 <= i < k ==> s[i] != '.'
    ensures k < |s| ==> s[k] == '.'
  {
    if |s| == 0 || s[0] == '.' then 0 else 1 + DotIndex(s[1..])
  }

  /** Matches /^(\d+)\.(\d+)$/: digits, one dot, digits. */
  function MatchProgress(s: string): (m: Option<(string, string)>)
    ensures m.Some? ==> AllDigits(m.value.0) && AllDigits(m.value.1)
    ensures m.Some? ==> |m.value.0| > 0 && |m.value.1| > 0 && s == m.value.0 + "." + m.value.1
  {
    var k := DotIndex(s);
    if k < |s| && 0 < k && k + 1 < |s| && AllDigits(s[..k]) && AllDigits(s[k + 1..]) then
      assert s == s[..k] + "." + s[k + 1..];
      Some((s[..k], s[k + 1..]))
    else None
  }

  lemma MatchOfJoin(a: string, b: string)
    requires AllDigits(a) && AllDigits(b) && |a| > 0 && |b| > 0
    ensures MatchProgress(a + "." + b) == Some((a, b))
  {
    var s := a + "." + b;
    assert s[|a|] == '.';
    assert forall i :: 0 <= i < |a| ==> s[i] == a[i];
    assert DotIndex(s) == |a|;
    assert s[..|a|] == a;
    assert s[|a| + 1..] == b;
  }

  /** parseProgress: null for a non-string, a mismatch, or a zero component. */
  function ParseProgress(progress: Option<string>): (r: Option<Progress>)
    ensures r.Some? ==> r.value.level > 0 && r.value.wave > 0
    ensures r.Some? ==> progress.Some? && MatchProgress(progress.value).Some?
    ensures progress.Some? && MatchProgress(progress.value).Some? ==>
              && (r.Some? <==> Value(MatchProgress(progress.value).value.0) > 0 && Value(MatchProgress(progress.value).value.1) > 0)
              && (r.Some? ==> r.value == Progress(Value(MatchProgress(progress.value).value.0),
                                                  Value(MatchProgress(progress.value).value.1)))
  {
    if progress.None? then None
    else
      var m := MatchProgress(progress.value);
      if m.None? then None
      else
        var level := Value(m.value.0);
        var wave := Value(m.value.1);
        if level <= 0 || wave <= 0 then None
        else Some(Progress(level, wave))
  }

  /** Parsing what buildProgress produced gives back the two numbers. */
  lemma ParseBuildProgress(level: nat, wave: nat)
    requires level > 0 && wave > 0
    ensures BuildProgress(level as real, wave as real).Ok?
    ensures ParseProgress(Some(BuildProgress(level as real, wave as real).value)) == Some(Progress(level, wave))
  {
    assert (level as real).Floor == level;
    assert (wave as real).Floor == wave;
    MatchOfJoin(NatToString(level), NatToString(wave));
    ValueOfNatToString(level);
    ValueOfNatToString(wave);
  }

  /** A leading zero on the level is accepted and dropped. */
  lemma LeadingZeroAccepted(a: string, b: string)
    requires AllDigits(a) && AllDigits(b) && |a| > 0 && |b| > 0
    ensures ParseProgress(Some("0" + a + "." + b)) == ParseProgress(Some(a + "." + b))
  {
    assert "0" + a + "." + b == ("0" + a) + "." + b;
    assert AllDigits("0" + a) by {
      assert forall i :: 1 <= i < |"0" + a| ==> ("0" + a)[i] == a[i - 1];
    }
    MatchOfJoin("0" + a, b);
    MatchOfJoin(a, b);
    LeadingZeroValue(a);
  }

  lemma SingleDigit(d: nat)
    requires d < 10
    ensures AllDigits([DigitChar(d)]) && Value([DigitChar(d)]) == d
    ensures NatToString(d) == [DigitChar(d)]
  {
    assert [DigitChar(d)][..0] == [];
  }

  /** So building from a parse canonicalises: "04.1" comes back as "4.1". */
  lemma LeadingZeroExample()
    ensures ParseProgress(Some("04.1")) == Some(Progress(4, 1))
    ensures BuildProgress(4.0, 1.0) == Ok("4.1")
  {
    SingleDigit(4);
    SingleDigit(1);
    assert DigitChar(4) == '4' && DigitChar(1) == '1';
    assert "04.1" == "0" + "4" + "." + "1";
    LeadingZeroAccepted("4", "1");
    MatchOfJoin("4", "1");
    assert (4.0).Floor == 4 && (1.0).Floor == 1;
    assert NumberText(4.0) == "4" && NumberText(1.0) == "1";
    assert NumberText(4.0) + "." + NumberText(1.0) == "4.1";
  }

  /** Zero components and non-digits are rejected. */
  lemma RejectedExamples()
    ensures ParseProgress(Some("0.1")).None?
    ensures ParseProgress(Some("x.y")).None?
    ensures ParseProgress(None).None?
  {
    MatchOfJoin("0", "1");
    assert "0.1" == "0" + "." + "1";
    assert Value("0") == 0 by { assert "0"[..0] == ""; }
    assert !IsDigit("x.y"[0]);
  }

  /** formatProgressLabel: a readable label, else the raw text, else a dash. */
  function FormatProgressLabel(progress: Option<string>): (text: string)
    ensures ParseProgress(progress).Some? ==>
              text == "第 " + NatToString(ParseProgress(progress).value.level) + " 关 · 第 "
                       + NatToString(ParseProgress(progress).value.wave) + " 波"
    ensures ParseProgress(progress).None? && progress.Some? && progress.value != "" ==> text == "进度 " + progress.value
    ensures ParseProgress(progress).None? && (progress.None? || progress.value == "") ==> text == "—"
  {
    var parsed := ParseProgress(progress);
    if parsed.None? then
      if progress.Some? && progress.value != "" then "进度 " + progress.value else "—"
    else "第 " + NatToString(parsed.value.level) + " 关 · 第 " + NatToString(parsed.value.wave) + " 波"
  }

  // ---------------------------------------------------------------------------
  // The submission payload

  /** Characters String.prototype.trim removes: white space and line terminators. */
  predicate IsJsSpace(c: char) {
    || c == '\t' || c == '\n' || c == '\U{B}' || c == '\U{C}' || c == '\r' || c == ' '
    || c == '\U{A0}' || c == '\U{1680}' || ('\U{2000}' <= c <= '\U{200A}')
    || c == '\U{2028}' || c == '\U{2029}' || c == '\U{202F}' || c == '\U{205F}'
    || c == '\U{3000}' || c == '\U{FEFF}'
  }

  /** How many white-space characters open the string. */
  function LeadingSpaces(s: string): (n: nat)
    ensures n <= |s|
    ensures forall i :: 0 <= i < n ==> IsJsSpace(s[i])
    ensures n < |s| ==> !IsJsSpace(s[n])
  {
    if |s| > 0 && IsJsSpace(s[0]) then 1 + LeadingSpaces(s[1..]) else 0
  }

  function TrimEnd(s: string): (r: string)
    ensures |r| <= |s| && r == s[..|r|]
    ensures |r| > 0 ==> !IsJsSpace(r[|r| - 1])
    ensures forall i :: |r| <= i < |s| ==> IsJsSpace(s[i])
  {
    if |s| > 0 && IsJsSpace(s[|s| - 1]) then TrimEnd(s[..|s| - 1]) else s
  }

  /**
   * trim: the result is the slice of the input that starts after its leading
   * white space, neither starts nor ends with white space, and is followed
   * only by white space.
   */
  function Trim(s: string): (r: string)
    ensures LeadingSpaces(s) + |r| <= |s|
    ensures r == s[LeadingSpaces(s)..LeadingSpaces(s) + |r|]
    ensures |r| > 0 ==> !IsJsSpace(r[0]) && !IsJsSpace(r[|r| - 1])
    ensures forall i :: LeadingSpaces(s) + |r| <= i < |s| ==> IsJsSpace(s[i])
  {
    TrimEnd(s[LeadingSpaces(s)..])
  }

  /** The fields of the summary the payload reads. */
  datatype PayloadSummary = PayloadSummary(score: real, levelReached: real, waveReached: real)

  datatype Payload = Payload(submissionId: string, playerName: string, score: int, progress: string)

  /**
   * buildSubmissionPayload: summary_required, submission_id_required,
   * invalid_score, then buildProgress's errors; otherwise the payload.
   */
  function BuildSubmissionPayload(summary: Option<PayloadSummary>, playerName: Option<string>,
                                  submissionId: Option<string>): (r: Result<Payload, string>)
    ensures summary.None? ==> r == Err("summary_required")
    ensures summary.Some? && (submissionId.None? || submissionId.value == "") ==> r == Err("submission_id_required")
    ensures summary.Some? && submissionId.Some? && submissionId.value != "" && summary.value.score < 0.0
            ==> r == Err("invalid_score")
    ensures summary.Some? && submissionId.Some? && submissionId.value != "" && summary.value.score >= 0.0 ==>
              && (r.Ok? <==> BuildProgress(summary.value.levelReached, summary.value.waveReached).Ok?)
              && (BuildProgress(summary.value.levelReached, summary.value.waveReached).Err? ==>
                    r == Err(BuildProgress(summary.value.levelReached, summary.value.waveReached).error))
    ensures r.Ok? ==>
              && summary.Some? && submissionId == Some(r.value.submissionId)
              && summary.value.score >= 0.0
              && r.value.score as real <= summary.value.score < r.value.score as real + 1.0
              && BuildProgress(summary.value.levelReached, summary.value.waveReached) == Ok(r.value.progress)
              && r.value.playerName == Trim(if playerName.Some? then playerName.value else "")
  {
    if summary.None? then Err("summary_required")
    else if submissionId.None? || submissionId.value == "" then Err("submission_id_required")
    else
      var score := summary.value.score;
      if score < 0.0 then Err("invalid_score")
      else
        var progress := BuildProgress(summary.value.levelReached, summary.value.waveReached);
        if progress.Err? then Err(progress.error)
        else
          var name := if playerName.Some? then playerName.value else "";
          Ok(Payload(submissionId.value, Trim(name), score.Floor, progress.value))
  }

  /** The payload's progress parses back to the summary's level and wave. */
  lemma PayloadProgressParses(summary: PayloadSummary, playerName: Option<string>, submissionId: Option<string>)
    requires BuildSubmissionPayload(Some(summary), playerName, submissionId).Ok?
    ensures var p := BuildSubmissionPayload(Some(summary), playerName, submissionId).value;
            ParseProgress(Some(p.progress)) == Some(Progress(summary.levelReached.Floor, summary.waveReached.Floor))
  {
    ParseBuildProgress(summary.levelReached.Floor, summary.waveReached.Floor);
  }
}

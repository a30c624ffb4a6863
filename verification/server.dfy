/**
 * The request-level rules of backend/app.py: the per-client sliding-window
 * rate limiter, the server's reading of a progress string, the per-level
 * score cap and the clamp on the leaderboard size. Routes, the database and
 * the clock are not modelled; the current time is a parameter.
 */
module Server {
  import opened Wrappers
  import opened Decimal
  import Leaderboard

  /** The largest leaderboard a request may ask for, and the default. */
  const DefaultLimit: int := 100

  // ---------------------------------------------------------------------------
  // RateLimiter

  /** Request times per client key, oldest first. */
  datatype RateLimiter = RateLimiter(maxRequests: int, windowSeconds: int, buckets: map<string, seq<real>>)

  function BucketOf(l: RateLimiter, key: string): seq<real> {
    if key in l.buckets then l.buckets[key] else []
  }

  /** Pops from the front while the oldest entry is at or before the threshold. */
  function EvictExpired(bucket: seq<real>, threshold: real): (r: seq<real>)
    ensures |r| <= |bucket| && r == bucket[|bucket| - |r|..]
    ensures |r| > 0 ==> r[0] > threshold
    ensures forall i :: 0 <= i < |bucket| - |r| ==> bucket[i] <= threshold
  {
    if |bucket| > 0 && bucket[0] <= threshold then EvictExpired(bucket[1..], threshold) else bucket
  }

  /**
   * allow: evict the key's expired entries; refuse when max_requests remain,
   * otherwise record `now` and admit. Other keys are untouched.
   */
  function Allow(l: RateLimiter, key: string, now: real): (r: (RateLimiter, bool))
    ensures key in r.0.buckets
    ensures r.0.maxRequests == l.maxRequests && r.0.windowSeconds == l.windowSeconds
    ensures forall k :: k != key ==> (k in r.0.buckets <==> k in l.buckets)
    ensures forall k :: k != key && k in l.buckets ==> r.0.buckets[k] == l.buckets[k]
    ensures var kept := EvictExpired(BucketOf(l, key), now - l.windowSeconds as real);
            && (r.1 <==> |kept| < l.maxRequests)
            && r.0.buckets[key] == (if r.1 then kept + [now] else kept)
    ensures r.1 ==> |r.0.buckets[key]| <= l.maxRequests
    ensures !r.1 ==> |r.0.buckets[key]| <= |BucketOf(l, key)|
  {
    var kept := EvictExpired(BucketOf(l, key), now - l.windowSeconds as real);
    if |kept| >= l.maxRequests then (l.(buckets := l.buckets[key := kept]), false)
    else (l.(buckets := l.buckets[key := kept + [now]]), true)
  }

  predicate Sorted(b: seq<real>) {
    forall i, j :: 0 <= i < j < |b| ==> b[i] <= b[j]
  }

  /** A bucket that is sorted, within `cap` entries, and not ahead of the clock. */
  predicate BucketOk(b: seq<real>, cap: int, now: real) {
    && Sorted(b)
    && |b| <= (if cap > 0 then cap else 0)
    && forall i :: 0 <= i < |b| ==> b[i] <= now
  }

  /**
   * The state a limiter keeps when its clock never runs backwards: every
   * bucket sorted, within the request cap, and not ahead of the clock.
   */
  predicate Consistent(l: RateLimiter, now: real) {
    forall k :: k in l.buckets ==> BucketOk(l.buckets[k], l.maxRequests, now)
  }

  lemma BucketOkLater(b: seq<real>, cap: int, before: real, now: real)
    requires BucketOk(b, cap, before) && before <= now
    ensures BucketOk(b, cap, now)
  {
  }

  lemma SuffixSorted(b: seq<real>, off: nat)
    requires Sorted(b) && off <= |b|
    ensures Sorted(b[off..])
  {
    forall i, j | 0 <= i < j < |b| - off
      ensures b[off..][i] <= b[off..][j]
    {
      assert b[off..][i] == b[off + i] && b[off..][j] == b[off + j];
    }
  }

  /** Front-only eviction of a sorted bucket removes every expired entry. */
  lemma SortedEvictionComplete(bucket: seq<real>, threshold: real)
    requires Sorted(bucket)
    ensures Sorted(EvictExpired(bucket, threshold))
    ensures forall i :: 0 <= i < |EvictExpired(bucket, threshold)| ==> EvictExpired(bucket, threshold)[i] > threshold
  {
    var r := EvictExpired(bucket, threshold);
    SuffixSorted(bucket, |bucket| - |r|);
    assert Sorted(r);
    forall i | 0 <= i < |r|
      ensures r[i] > threshold
    {
      assert r[0] <= r[i];
    }
  }

  function AdmitOrKeep(kept: seq<real>, now: real, maxRequests: int): seq<real> {
    if |kept| < maxRequests then kept + [now] else kept
  }

  /** What allow leaves in one bucket, when the bucket was sorted and not ahead of the clock. */
  lemma AllowedBucket(bucket: seq<real>, threshold: real, now: real, maxRequests: int)
    requires BucketOk(bucket, maxRequests, now) && threshold < now
    ensures BucketOk(AdmitOrKeep(EvictExpired(bucket, threshold), now, maxRequests), maxRequests, now)
    ensures forall i :: 0 <= i < |AdmitOrKeep(EvictExpired(bucket, threshold), now, maxRequests)| ==>
              threshold < AdmitOrKeep(EvictExpired(bucket, threshold), now, maxRequests)[i]
  {
    SortedEvictionComplete(bucket, threshold);
    var kept := EvictExpired(bucket, threshold);
    forall i | 0 <= i < |kept|
      ensures kept[i] <= now
    {
      assert kept[i] == bucket[|bucket| - |kept| + i];
    }
    if |kept| < maxRequests {
      var b := kept + [now];
      forall i, j | 0 <= i < j < |b|
        ensures b[i] <= b[j]
      {
        assert b[i] == kept[i];
        if j < |kept| {
          assert b[j] == kept[j];
        }
      }
      forall i | 0 <= i < |b|
        ensures threshold < b[i] <= now
      {
        if i < |kept| {
          assert b[i] == kept[i];
        }
      }
    }
  }

  /**
   * With a clock that does not run backwards and a positive window, allow
   * keeps the limiter consistent, and afterwards the key's bucket holds only
   * entries inside the window.
   */
  lemma AllowKeepsConsistent(l: RateLimiter, key: string, before: real, now: real)
    requires Consistent(l, before) && before <= now && l.windowSeconds > 0
    ensures Consistent(Allow(l, key, now).0, now)
    ensures forall i :: 0 <= i < |Allow(l, key, now).0.buckets[key]| ==>
              now - l.windowSeconds as real < Allow(l, key, now).0.buckets[key][i] <= now
  {
    var threshold := now - l.windowSeconds as real;
    var bucket := BucketOf(l, key);
    if key in l.buckets {
      BucketOkLater(bucket, l.maxRequests, before, now);
    }
    AllowedBucket(bucket, threshold, now, l.maxRequests);
    var l' := Allow(l, key, now).0;
    assert l'.buckets[key] == AdmitOrKeep(EvictExpired(bucket, threshold), now, l.maxRequests);
    forall k | k in l'.buckets
      ensures BucketOk(l'.buckets[k], l'.maxRequests, now)
    {
      if k != key {
        BucketOkLater(l.buckets[k], l.maxRequests, before, now);
      }
    }
  }

  // ---------------------------------------------------------------------------
  // parse_progress and validate_score

  /**
   * The text LEVEL_PROGRESS_RE.match compares with "digits.digits": Python's
   * `$` also matches before one final newline.
   */
  function MatchedText(s: string): string {
    if |s| > 0 && s[|s| - 1] == '\n' then s[..|s| - 1] else s
  }

  /** parse_progress: (level, wave), both positive, or a ValueError message. */
  function ParseProgress(progress: string): (r: Result<(nat, nat), string>)
    ensures Leaderboard.MatchProgress(MatchedText(progress)).None? ==> r == Err("invalid progress format")
    ensures r.Ok? ==> r.value.0 > 0 && r.value.1 > 0
    ensures r.Ok? <==> Leaderboard.ParseProgress(Some(MatchedText(progress))).Some?
    ensures r.Ok? ==> Leaderboard.ParseProgress(Some(MatchedText(progress))).value
                      == Leaderboard.Progress(r.value.0, r.value.1)
  {
    var m := Leaderboard.MatchProgress(MatchedText(progress));
    if m.None? then Err("invalid progress format")
    else
      var level := Value(m.value.0);
      var wave := Value(m.value.1);
      if level <= 0 || wave <= 0 then Err("progress values must be positive")
      else Ok((level, wave))
  }

  /** Server and browser read every progress string without a final newline alike. */
  lemma ParsersAgree(s: string)
    requires |s| == 0 || s[|s| - 1] != '\n'
    ensures ParseProgress(s).Ok? <==> Leaderboard.ParseProgress(Some(s)).Some?
    ensures ParseProgress(s).Ok? ==> Leaderboard.ParseProgress(Some(s)).value
                                     == Leaderboard.Progress(ParseProgress(s).value.0, ParseProgress(s).value.1)
  {
  }

  /** The server also takes "1.2\n", which the browser's parser refuses. */
  lemma TrailingNewlineAccepted()
    ensures ParseProgress("1.2\n") == Ok((1, 2))
    ensures Leaderboard.ParseProgress(Some("1.2\n")).None?
  {
    assert MatchedText("1.2\n") == "1" + "." + "2";
    Leaderboard.MatchOfJoin("1", "2");
    assert Value("1") == 1 by { assert "1"[..0] == ""; }
    assert Value("2") == 2 by { assert "2"[..0] == ""; }
    var s := "1.2\n";
    assert Leaderboard.DotIndex(s) == 1;
    assert !IsDigit(s[3]);
    assert !AllDigits(s[2..]);
  }

  datatype HttpError = HttpError(status: int, detail: string)

  /** The maxScore table of the validation caps; a None entry is a JSON null. */
  type ScoreCaps = map<string, Option<int>>

  function CapFor(caps: ScoreCaps, level: nat): Option<int> {
    var key := NatToString(level);
    if key in caps && caps[key].Some? then caps[key] else None
  }

  /**
   * validate_score: invalid_progress, then unknown_level when the level has
   * no cap, then score_too_high; all with status 400. None accepts.
   */
  function ValidateScore(caps: ScoreCaps, score: int, progress: string): (r: Option<HttpError>)
    ensures r.Some? ==> r.value.status == 400
    ensures ParseProgress(progress).Err? ==> r == Some(HttpError(400, "invalid_progress"))
    ensures r.None? <==> (ParseProgress(progress).Ok? && CapFor(caps, ParseProgress(progress).value.0).Some?
                          && score <= CapFor(caps, ParseProgress(progress).value.0).value)
    ensures ParseProgress(progress).Ok? && CapFor(caps, ParseProgress(progress).value.0).None?
            ==> r == Some(HttpError(400, "unknown_level"))
    ensures ParseProgress(progress).Ok? && CapFor(caps, ParseProgress(progress).value.0).Some?
            && score > CapFor(caps, ParseProgress(progress).value.0).value
            ==> r == Some(HttpError(400, "score_too_high"))
  {
    var parsed := ParseProgress(progress);
    if parsed.Err? then Some(HttpError(400, "invalid_progress"))
    else
      var cap := CapFor(caps, parsed.value.0);
      if cap.None? then Some(HttpError(400, "unknown_level"))
      else if score > cap.value then Some(HttpError(400, "score_too_high"))
      else None
  }

  /** Only the level of the progress matters to the score check. */
  lemma WaveIgnored(caps: ScoreCaps, score: int, level: nat, wave1: nat, wave2: nat)
    requires level > 0 && wave1 > 0 && wave2 > 0
    ensures ValidateScore(caps, score, NatToString(level) + "." + NatToString(wave1))
         == ValidateScore(caps, score, NatToString(level) + "." + NatToString(wave2))
  {
    ParsesRendered(level, wave1);
    ParsesRendered(level, wave2);
  }

  lemma ParsesRendered(level: nat, wave: nat)
    requires level > 0 && wave > 0
    ensures ParseProgress(NatToString(level) + "." + NatToString(wave)) == Ok((level, wave))
  {
    var s := NatToString(level) + "." + NatToString(wave);
    var w := NatToString(wave);
    assert s[|s| - 1] == w[|w| - 1];
    assert MatchedText(s) == s;
    Leaderboard.MatchOfJoin(NatToString(level), w);
    ValueOfNatToString(level);
    ValueOfNatToString(wave);
  }

  // ---------------------------------------------------------------------------
  // The leaderboard size

  /** The limit clamp: inside [1, DefaultLimit], unchanged when already there. */
  function ClampLimit(limit: int): (r: int)
    ensures 1 <= r <= DefaultLimit
    ensures 1 <= limit <= DefaultLimit ==> r == limit
    ensures limit < 1 ==> r == 1
    ensures limit > DefaultLimit ==> r == DefaultLimit
  {
    var capped := if limit < DefaultLimit then limit else DefaultLimit;
    if 1 > capped then 1 else capped
  }
}

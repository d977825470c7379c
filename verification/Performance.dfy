/**
 Rolling statistics of a route (fair/embedded/performance.py) against the full history of
 its attempts.  Scores and averages are exact rationals.
 */
module Performance {
  import opened Options
  import opened Dispositions

  const WINDOW := 20

  /** `score` is the quality report's, if there is a report with one. */
  datatype Attempt = Attempt(disposition: Disposition, score: Option<real>, hallucinated: bool, at: real)

  datatype Stats = Stats(
    attempts: nat, accepted: nat, qualityFailures: nat, infraFailures: nat, quotaFailures: nat, unverified: nat,
    hallucinations: nat, samples: nat, sum: real, recent: seq<real>, outcomes: seq<Disposition>, lastAt: Option<real>)

  const EMPTY := Stats(0, 0, 0, 0, 0, 0, 0, 0, 0.0, [], [], None)

  /** A row counts each refusal for quota as an attempt. */
  type Row = s: Stats | s.quotaFailures <= s.attempts witness EMPTY

  type Route = (string, string, string)

  // ---------- the full history ----------

  predicate Scored(a: Attempt) {
    (a.disposition == Accepted || a.disposition == QualityFailure) && a.score.Some?
  }

  function Samples(history: seq<Attempt>): seq<real> {
    if history == [] then []
    else Samples(history[..|history| - 1]) + if Scored(history[|history| - 1]) then [history[|history| - 1].score.value] else []
  }

  function Sum(scores: seq<real>): real {
    if scores == [] then 0.0 else Sum(scores[..|scores| - 1]) + scores[|scores| - 1]
  }

  function Count(history: seq<Attempt>, d: Disposition): nat {
    if history == [] then 0 else Count(history[..|history| - 1], d) + if history[|history| - 1].disposition == d then 1 else 0
  }

  function Outcomes(history: seq<Attempt>): seq<Disposition> {
    if history == [] then [] else Outcomes(history[..|history| - 1]) + [history[|history| - 1].disposition]
  }

  function Hallucinated(history: seq<Attempt>): nat {
    if history == [] then 0
    else Hallucinated(history[..|history| - 1])
         + var a := history[|history| - 1];
           if a.hallucinated && (a.disposition == Accepted || a.disposition == QualityFailure) then 1 else 0
  }

  function LastScored(history: seq<Attempt>): Option<real> {
    if history == [] then None
    else if Scored(history[|history| - 1]) then Some(history[|history| - 1].at)
    else LastScored(history[..|history| - 1])
  }

  function Last<T>(s: seq<T>, n: nat): (r: seq<T>)
    ensures |r| == if |s| < n then |s| else n
  {
    if |s| <= n then s else s[|s| - n..]
  }

  function Earlier<T>(s: seq<T>, n: nat): (r: seq<T>)
    ensures r + Last(s, n) == s
  {
    s[..|s| - |Last(s, n)|]
  }

  /** What the stored row should be, recomputed from everything. */
  ghost predicate Recomputed(row: Row, history: seq<Attempt>) {
    && row.attempts == |history|
    && row.accepted == Count(history, Accepted) && row.qualityFailures == Count(history, QualityFailure)
    && row.infraFailures == Count(history, InfraFailure) && row.quotaFailures == Count(history, QuotaFailure)
    && row.unverified == Count(history, Unverified) && row.hallucinations == Hallucinated(history)
    && row.samples == |Samples(history)| && row.sum == Sum(Samples(history))
    && row.recent == Last(Samples(history), WINDOW) && row.outcomes == Last(Outcomes(history), WINDOW)
    && row.lastAt == LastScored(history)
  }

  /** Rolling a window is rolling the whole. */
  lemma {:induction false} LastMore<T>(s: seq<T>, x: T, n: nat)
    ensures Last(Last(s, n) + [x], n) == Last(s + [x], n)
  {
  }

  /** What one more attempt adds to a history: only a judged answer with a score is a sample. */
  lemma {:induction false} HistoryMore(history: seq<Attempt>, a: Attempt)
    ensures var answered := a.disposition == Accepted || a.disposition == QualityFailure;
            Samples(history + [a]) == Samples(history) + if answered && a.score.Some? then [a.score.value] else []
    ensures Outcomes(history + [a]) == Outcomes(history) + [a.disposition]
    ensures forall d :: Count(history + [a], d) == Count(history, d) + if a.disposition == d then 1 else 0
    ensures Hallucinated(history + [a]) == Hallucinated(history)
              + if a.hallucinated && (a.disposition == Accepted || a.disposition == QualityFailure) then 1 else 0
    ensures LastScored(history + [a]) == if Scored(a) then Some(a.at) else LastScored(history)
  {
    assert (history + [a])[..|history|] == history;
  }

  lemma {:induction false} SumMore(scores: seq<real>, x: real)
    ensures Sum(scores + [x]) == Sum(scores) + x
  {
    assert (scores + [x])[..|scores|] == scores;
  }

  /** One more attempt on a row. */
  function After(row: Row, a: Attempt): (next: Row) {
    var scored, gave := Scored(a), a.disposition == Accepted || a.disposition == QualityFailure;
    Stats(
      row.attempts + 1,
      row.accepted + (if a.disposition == Accepted then 1 else 0),
      row.qualityFailures + (if a.disposition == QualityFailure then 1 else 0),
      row.infraFailures + (if a.disposition == InfraFailure then 1 else 0),
      row.quotaFailures + (if a.disposition == QuotaFailure then 1 else 0),
      row.unverified + (if a.disposition == Unverified then 1 else 0),
      row.hallucinations + (if gave && a.hallucinated then 1 else 0),
      if scored then row.samples + 1 else row.samples,
      if scored then row.sum + a.score.value else row.sum,
      if scored then Last(row.recent + [a.score.value], WINDOW) else row.recent,
      Last(row.outcomes + [a.disposition], WINDOW),
      if scored then Some(a.at) else row.lastAt)
  }

  type Table = map<Route, Row>

  function RowIn(table: Table, route: Route): Row { if route in table then table[route] else EMPTY }

  class PerformanceRegistry {
    var stats: Table

    constructor ()
      ensures stats == map[]
    {
      stats := map[];
    }

    /** One more attempt: whatever history the row stood for, it stands for that and this attempt. */
    method Record(route: Route, attempt: Attempt)
      modifies this
      ensures stats == old(stats)[route := After(RowIn(old(stats), route), attempt)]
      ensures forall history :: Recomputed(RowIn(old(stats), route), history) ==> Recomputed(RowIn(stats, route), history + [attempt])
    {
      var row: Stats := RowIn(stats, route);
      row := row.(attempts := row.attempts + 1, outcomes := Last(row.outcomes + [attempt.disposition], WINDOW));
      match attempt.disposition {
        case Accepted => row := row.(accepted := row.accepted + 1);
        case QualityFailure => row := row.(qualityFailures := row.qualityFailures + 1);
        case InfraFailure => row := row.(infraFailures := row.infraFailures + 1);
        case QuotaFailure => row := row.(quotaFailures := row.quotaFailures + 1);
        case Unverified => row := row.(unverified := row.unverified + 1);
        case CapabilityMismatch =>
      }
      if attempt.disposition == Accepted || attempt.disposition == QualityFailure {
        if attempt.score.Some? {
          row := row.(samples := row.samples + 1, sum := row.sum + attempt.score.value,
                      recent := Last(row.recent + [attempt.score.value], WINDOW), lastAt := Some(attempt.at));
        }
        if attempt.hallucinated {
          row := row.(hallucinations := row.hallucinations + 1);
        }
      }
      assert row == After(RowIn(stats, route), attempt);
      forall history | Recomputed(RowIn(stats, route), history) ensures Recomputed(row, history + [attempt]) {
        Recorded(RowIn(stats, route), history, attempt);
      }
      stats := stats[route := row];
    }
  }

  lemma {:induction false} Recorded(row: Row, history: seq<Attempt>, a: Attempt)
    requires Recomputed(row, history)
    ensures Recomputed(After(row, a), history + [a])
  {
    hide Samples, Sum, Count, Outcomes, Hallucinated, LastScored, Last;
    HistoryMore(history, a);
    LastMore(Outcomes(history), a.disposition, WINDOW);
    assert Samples(history) + [] == Samples(history);
    if Scored(a) {
      LastMore(Samples(history), a.score.value, WINDOW);
      SumMore(Samples(history), a.score.value);
    }
  }

  // ---------- every run of the registry ----------

  datatype Logged = Logged(route: Route, attempt: Attempt)

  function Run(log: seq<Logged>): Table {
    if log == [] then map[]
    else
      var table, last := Run(log[..|log| - 1]), log[|log| - 1];
      table[last.route := After(RowIn(table, last.route), last.attempt)]
  }

  /** The attempts of one route, in order. */
  function Of(log: seq<Logged>, route: Route): seq<Attempt> {
    if log == [] then []
    else Of(log[..|log| - 1], route) + if log[|log| - 1].route == route then [log[|log| - 1].attempt] else []
  }

  ghost predicate RowIsRecomputed(log: seq<Logged>, route: Route) {
    Recomputed(RowIn(Run(log), route), Of(log, route))
  }

  lemma {:induction false} OneMoreRecord(log: seq<Logged>, route: Route)
    requires log != [] && RowIsRecomputed(log[..|log| - 1], route)
    ensures RowIsRecomputed(log, route)
  {
    hide Recomputed, After;
    var init, last := log[..|log| - 1], log[|log| - 1];
    var row, history := RowIn(Run(init), route), Of(init, route);
    assert history + [] == history;
    if last.route == route {
      Recorded(row, history, last.attempt);
    } else {
      assert RowIn(Run(log), route) == row && Of(log, route) == history;
    }
  }

  /** After any sequence of records, every row is what its own route's whole history recomputes to. */
  lemma {:induction false} RowsAreRecomputed(log: seq<Logged>, route: Route)
    ensures RowIsRecomputed(log, route)
  {
    hide RowIsRecomputed;
    if log == [] {
      NothingLogged(log, route);
    } else {
      RowsAreRecomputed(log[..|log| - 1], route);
      OneMoreRecord(log, route);
    }
  }

  lemma {:induction false} NothingLogged(log: seq<Logged>, route: Route)
    requires log == []
    ensures RowIsRecomputed(log, route)
  {
  }

  // ---------- what the scores mean ----------

  datatype Drift = InsufficientData | Degraded | Stable

  function Mean(scores: seq<real>): real
    requires scores != []
  {
    Sum(scores) / |scores| as real
  }

  /** The mean of all but the recent scores, as the code works it out from the totals. */
  function Baseline(row: Row): Option<real> {
    var count := row.samples - |row.recent|;
    if count > 0 then Some((row.sum - Sum(row.recent)) / count as real) else None
  }

  function DriftState(row: Row, drop: real): Drift {
    var count := row.samples - |row.recent|;
    if count < 20 || |row.recent| < 5 then InsufficientData
    else
      var fall := Baseline(row).value - Mean(row.recent);
      if (if fall < 0.0 then 0.0 else fall) >= drop then Degraded else Stable
  }

  function Smoothed(sum: real, n: nat, prior: real): real {
    (sum / 100.0 + 5.0 * prior) / (n + 5) as real
  }

  function Lesser(a: real, b: real): real { if b < a then b else a }

  /** The quality and the reliability the selector weighs a route by. */
  function Scores(row: Option<Row>, prior: Option<real>, drop: real): (real, real) {
    var assumed := if prior.Some? then prior.value else 0.5;
    if row.None? then (assumed, 0.5)
    else
      var overall := Smoothed(row.value.sum, row.value.samples, assumed);
      var quality := if DriftState(row.value, drop) == Degraded
                     then Lesser(overall, Smoothed(Sum(row.value.recent), |row.value.recent|, assumed)) else overall;
      var observed := row.value.attempts - row.value.quotaFailures;
      var reliability := ((observed - row.value.infraFailures) as real + 2.5) / (observed + 5) as real;
      (if prior.Some? then Lesser(prior.value, quality) else quality, reliability)
  }

  lemma {:induction false} SumSplits(a: seq<real>, b: seq<real>)
    ensures Sum(a + b) == Sum(a) + Sum(b)
  {
    if b == [] {
      assert a + b == a;
    } else {
      SumSplits(a, b[..|b| - 1]);
      assert (a + b)[..|a + b| - 1] == a + b[..|b| - 1];
    }
  }

  /** The baseline is the mean of every score but the last twenty. */
  lemma {:induction false} BaselineIsTheEarlierMean(row: Row, history: seq<Attempt>)
    requires Recomputed(row, history)
    ensures var earlier := Earlier(Samples(history), WINDOW);
            Baseline(row) == if earlier == [] then None else Some(Mean(earlier))
  {
    var scores := Samples(history);
    SumSplits(Earlier(scores, WINDOW), Last(scores, WINDOW));
    assert |scores| == |Earlier(scores, WINDOW)| + |Last(scores, WINDOW)|;
  }

  /**
   A drift is called exactly when there are forty scores and the last twenty have, on
   average, fallen short of the others by the points set: with forty there are always
   twenty recent ones, so no smaller number of them is ever judged.
   */
  lemma {:induction false} DriftNeedsForty(row: Row, history: seq<Attempt>, drop: real)
    requires Recomputed(row, history) && drop > 0.0
    ensures var scores := Samples(history);
            DriftState(row, drop) == Degraded <==>
              |scores| >= 40 && Mean(Earlier(scores, WINDOW)) - Mean(Last(scores, WINDOW)) >= drop
  {
    BaselineIsTheEarlierMean(row, history);
    hide Sum, Samples;
  }

  ghost predicate InRange(history: seq<Attempt>) {
    forall a <- history :: a.score.Some? ==> 0.0 <= a.score.value <= 100.0
  }

  lemma {:induction false} SumBounds(scores: seq<real>)
    requires forall k | 0 <= k < |scores| :: 0.0 <= scores[k] <= 100.0
    ensures 0.0 <= Sum(scores) <= 100.0 * |scores| as real
  {
    if scores != [] {
      SumBounds(scores[..|scores| - 1]);
    }
  }

  lemma {:induction false} SamplesInRange(history: seq<Attempt>)
    requires InRange(history)
    ensures forall k | 0 <= k < |Samples(history)| :: 0.0 <= Samples(history)[k] <= 100.0
  {
    if history != [] {
      var last := history[|history| - 1];
      assert last in history;
      SamplesInRange(history[..|history| - 1]);
    }
  }

  lemma {:induction false} FailuresFit(history: seq<Attempt>)
    ensures Count(history, InfraFailure) + Count(history, QuotaFailure) <= |history|
  {
    if history != [] {
      FailuresFit(history[..|history| - 1]);
    }
  }

  lemma {:induction false} SmoothedBounds(sum: real, n: nat, prior: real)
    requires 0.0 <= sum <= 100.0 * n as real && 0.0 <= prior <= 1.0
    ensures 0.0 <= Smoothed(sum, n, prior) <= 1.0
  {
    var top, bottom := sum / 100.0 + 5.0 * prior, (n + 5) as real;
    assert 0.0 <= top <= bottom;
    Quotient(top, bottom);
  }

  lemma {:induction false} Quotient(a: real, b: real)
    requires 0.0 <= a <= b && 0.0 < b
    ensures 0.0 <= a / b <= 1.0
    ensures 0.0 < a < b ==> 0.0 < a / b < 1.0
  {
    var q := a / b;
    assert q * b == a;
    assert q > 1.0 ==> q * b > 1.0 * b;
    assert q < 0.0 ==> q * b < 0.0;
  }

  /** Quality stays in [0, 1] and reliability strictly inside (0, 1), whatever was recorded. */
  lemma {:induction false} ScoresInRange(row: Row, history: seq<Attempt>, prior: Option<real>, drop: real)
    requires Recomputed(row, history) && InRange(history) && (prior.Some? ==> 0.0 <= prior.value <= 1.0)
    ensures var (quality, reliability) := Scores(Some(row), prior, drop);
            0.0 <= quality <= 1.0 && 0.0 < reliability < 1.0
  {
    hide Sum, Samples, Count, DriftState, Smoothed;
    var assumed := if prior.Some? then prior.value else 0.5;
    SamplesInRange(history);
    SumBounds(Samples(history));
    SmoothedBounds(row.sum, row.samples, assumed);
    var recent := Last(Samples(history), WINDOW);
    SumBounds(recent);
    SmoothedBounds(Sum(recent), |recent|, assumed);
    FailuresFit(history);
    var observed := row.attempts - row.quotaFailures;
    Quotient((observed - row.infraFailures) as real + 2.5, (observed + 5) as real);
  }

  /** A quota refusal says nothing about a route: neither score moves. */
  lemma {:induction false} QuotaRefusalsAreNeutral(row: Row, next: Row, history: seq<Attempt>, a: Attempt, prior: Option<real>, drop: real)
    requires Recomputed(row, history) && Recomputed(next, history + [a]) && a.disposition == QuotaFailure
    ensures Scores(Some(next), prior, drop) == Scores(Some(row), prior, drop)
  {
    HistoryMore(history, a);
    hide Sum, Samples, Smoothed, Last, Count;
    assert Samples(history + [a]) == Samples(history);
  }

  /** An outage lowers reliability and leaves quality alone. */
  lemma {:induction false} OutagesCost(row: Row, next: Row, history: seq<Attempt>, a: Attempt, prior: Option<real>, drop: real)
    requires Recomputed(row, history) && Recomputed(next, history + [a]) && a.disposition == InfraFailure
    ensures Scores(Some(next), prior, drop).0 == Scores(Some(row), prior, drop).0
    ensures Scores(Some(next), prior, drop).1 < Scores(Some(row), prior, drop).1
  {
    HistoryMore(history, a);
    FailuresFit(history);
    hide Sum, Samples, Smoothed, Last, Count;
    assert Samples(history + [a]) == Samples(history);
    var observed := row.attempts - row.quotaFailures;
    Shrinks((observed - row.infraFailures) as real + 2.5, (observed + 5) as real);
  }

  lemma {:induction false} Shrinks(a: real, b: real)
    requires 0.0 < a && 0.0 < b
    ensures a / (b + 1.0) < a / b
  {
    var p, q := a / (b + 1.0), a / b;
    assert p * (b + 1.0) == a && q * b == a;
    assert q <= 0.0 ==> q * b <= 0.0;
    assert p >= q ==> p * (b + 1.0) >= q * (b + 1.0);
    assert q * (b + 1.0) == q * b + q;
  }

  // ---------- the scores as means ----------

  function Repeated(x: real, n: nat): seq<real> { if n == 0 then [] else Repeated(x, n - 1) + [x] }

  function AsShares(scores: seq<real>): (shares: seq<real>)
    ensures |shares| == |scores| && forall k | 0 <= k < |scores| :: shares[k] * 100.0 == scores[k]
  {
    if scores == [] then [] else AsShares(scores[..|scores| - 1]) + [scores[|scores| - 1] / 100.0]
  }

  /** One for each attempt that was answered, nought for each outage; quota refusals left out. */
  function Answered(history: seq<Attempt>): seq<real> {
    if history == [] then []
    else
      var d := history[|history| - 1].disposition;
      Answered(history[..|history| - 1]) + if d == QuotaFailure then [] else if d == InfraFailure then [0.0] else [1.0]
  }

  lemma {:induction false} SumRepeated(x: real, n: nat)
    ensures |Repeated(x, n)| == n && Sum(Repeated(x, n)) == n as real * x
  {
    if n > 0 {
      SumRepeated(x, n - 1);
      assert Repeated(x, n)[..n - 1] == Repeated(x, n - 1);
    }
  }

  lemma {:induction false} SumShares(scores: seq<real>)
    ensures Sum(AsShares(scores)) == Sum(scores) / 100.0
  {
    if scores != [] {
      SumShares(scores[..|scores| - 1]);
      assert AsShares(scores)[..|scores| - 1] == AsShares(scores[..|scores| - 1]);
    }
  }

  /** A smoothed score is the mean of the scores, as shares, and five more that are the prior. */
  lemma {:induction false} SmoothedIsAMean(scores: seq<real>, prior: real)
    ensures Smoothed(Sum(scores), |scores|, prior) == Mean(AsShares(scores) + Repeated(prior, 5))
  {
    SumRepeated(prior, 5);
    SumShares(scores);
    SumSplits(AsShares(scores), Repeated(prior, 5));
  }

  lemma {:induction false} AnsweredSum(history: seq<Attempt>)
    ensures |Answered(history)| == |history| - Count(history, QuotaFailure)
    ensures Sum(Answered(history)) == (|history| - Count(history, QuotaFailure) - Count(history, InfraFailure)) as real
  {
    if history != [] {
      var init := history[..|history| - 1];
      AnsweredSum(init);
      var d := history[|history| - 1].disposition;
      var last := if d == QuotaFailure then [] else if d == InfraFailure then [0.0] else [1.0];
      SumSplits(Answered(init), last);
      assert [1.0][..0] == [] && [0.0][..0] == [];
    }
  }

  /** The least of the scores' mean, the recent scores' mean once they have drifted, and the prior where one is given. */
  ghost predicate QualityIs(quality: real, scores: seq<real>, drifted: bool, prior: Option<real>) {
    var assumed := if prior.Some? then prior.value else 0.5;
    var overall, recent := Mean(AsShares(scores) + Repeated(assumed, 5)), Mean(AsShares(Last(scores, WINDOW)) + Repeated(assumed, 5));
    && quality <= overall && (drifted ==> quality <= recent) && (prior.Some? ==> quality <= prior.value)
    && (quality == overall || (drifted && quality == recent) || Some(quality) == prior)
  }

  /**
   What a route's history makes of it: its quality the mean of its scores, pulled towards the
   prior by five, the recent ones deciding once they have drifted and the prior never
   exceeded; its reliability the mean of its outcomes and five halves, quota refusals left out.
   */
  lemma {:induction false} ScoresAreMeans(row: Row, history: seq<Attempt>, prior: Option<real>, drop: real)
    requires Recomputed(row, history)
    ensures var (quality, reliability) := Scores(Some(row), prior, drop);
            && QualityIs(quality, Samples(history), DriftState(row, drop) == Degraded, prior)
            && reliability == Mean(Answered(history) + Repeated(0.5, 5))
  {
    hide Sum, Samples, Count, DriftState, Smoothed, Mean, Answered, Repeated, AsShares;
    var assumed := if prior.Some? then prior.value else 0.5;
    SmoothedIsAMean(Samples(history), assumed);
    SmoothedIsAMean(Last(Samples(history), WINDOW), assumed);
    ReliabilityIsAMean(row, history);
  }

  lemma {:induction false} ReliabilityIsAMean(row: Row, history: seq<Attempt>)
    requires Recomputed(row, history)
    ensures var observed := row.attempts - row.quotaFailures;
            observed + 5 > 0
            && ((observed - row.infraFailures) as real + 2.5) / (observed + 5) as real == Mean(Answered(history) + Repeated(0.5, 5))
  {
    hide Samples;
    AnsweredSum(history);
    SumRepeated(0.5, 5);
    SumSplits(Answered(history), Repeated(0.5, 5));
    FailuresFit(history);
  }

  /** A route nothing is known of: the prior, or a half, for its quality, and a half for its reliability. */
  lemma {:induction false} UnknownRoutes(prior: Option<real>, drop: real)
    ensures var (quality, reliability) := Scores(None, prior, drop);
            (prior.Some? ==> quality == prior.value) && (prior.None? ==> quality == 0.5) && reliability == 0.5
  {
  }
}

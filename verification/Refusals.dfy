/**
 Why and how long a provider is refused, over every interleaving of attempts
 (fair/embedded/quota.py): what bars it, what starts and lifts each bar, and when the
 circuit breaker trips.
 */
module Refusals {
  import opened Options
  import opened Ledger
  import opened Governor
  import opened Probes

  // ---------- bars ----------

  datatype Bar = Spent | Blocked | Waiting | Tripped

  /** `bar` keeps the provider from being reserved before `until` (`Blocked`: at all). */
  ghost predicate Barred(s: QuotaState, bar: Bar, until: Time) {
    match bar
    case Spent => s.exhausted && s.resetAt.Some? && s.resetAt.value >= until
    case Blocked => s.securityBlocked
    case Waiting => s.throttledUntil >= until
    case Tripped => s.circuit == OPEN && s.blockedUntil >= until
  }

  /** The event is about `p`. */
  ghost predicate About(w: World, m: Moment, e: Event, p: ProviderId) {
    Enabled(w, m, e) && Touched(w, e) == p
  }

  /** A success of `p` reaches its circuit, or an operator closes it. */
  ghost predicate Heals(w: World, m: Moment, e: Event, p: ProviderId) {
    About(w, m, e, p) && ((e.Ends? && e.ending.Replied?) || (e.Outside? && (e.op == Unblock || e.op == Stray(false))))
  }

  /** When a spent allowance returns: the provider's word if it lies ahead, else the window's end, else an hour on. */
  function Returns(spec: Spec, reset: Option<Time>, m: Moment): Time
    requires m.now < m.midnight
  {
    if reset.Some? && reset.value > m.now then reset.value
    else if spec.window.Some? then NextWindowReset(spec.window.value, m.now, m.midnight) else m.now + EXHAUSTION_RETRY
  }

  /** What may end a bar before its time: for an exhaustion, another one with an earlier reset. */
  ghost predicate Lifts(w: World, m: Moment, e: Event, p: ProviderId, bar: Bar, until: Time) {
    match bar
    case Spent =>
      About(w, m, e, p) && e.Ends? && e.ending.QuotaExceeded? && !e.ending.modelScoped && Returns(e.spec, e.ending.reset, m) < until
    case Blocked => About(w, m, e, p) && e == Outside(p, Unblock)
    case Waiting => About(w, m, e, p) && e == Outside(p, Unblock)
    case Tripped => Heals(w, m, e, p)
  }

  /** The bar runs at `now`; a trip no longer than a cooldown ago. */
  predicate InTime(bar: Bar, now: Time, until: Time, cfg: Settings) {
    (bar != Blocked ==> now < until) && (bar == Tripped ==> until <= now + cfg.cooldown)
  }

  lemma {:induction false} BarredState(s: QuotaState, bar: Bar, until: Time, now: Time, cfg: Settings)
    requires Barred(s, bar, until) && InTime(bar, now, until, cfg)
    ensures Barred(RecoverState(s, now, cfg), bar, until)
    ensures forall spec, count :: !AvailableLocal(RecoverState(s, now, cfg), spec, now, count)
  {
  }

  lemma {:induction false} SettlingKeepsBar(s: QuotaState, token: nat, spec: Spec, ending: Ending, m: Moment, cfg: Settings, bar: Bar, until: Time)
    requires Barred(s, bar, until) && InTime(bar, m.now, until, cfg) && m.now < m.midnight
    requires bar == Tripped ==> !ending.Replied?
    requires bar == Spent && ending.QuotaExceeded? && !ending.modelScoped ==> ExhaustionReset(spec, ending.reset, m.now, m.midnight) >= until
    ensures Barred(Settle(s, token, spec, ending, m, cfg), bar, until)
  {
  }

  lemma {:induction false} OperatingKeepsBar(s: QuotaState, op: Operator, m: Moment, cfg: Settings, bar: Bar, until: Time)
    requires Barred(s, bar, until) && InTime(bar, m.now, until, cfg)
    requires bar == Tripped ==> op != Stray(false)
    requires bar != Spent ==> op != Unblock
    ensures Barred(Operate(s, op, m, cfg), bar, until)
  {
  }

  lemma {:induction false} HearingKeepsBar(s: QuotaState, spec: Spec, o: Observation, m: Moment, bar: Bar, until: Time)
    requires Barred(s, bar, until) && m.now < m.midnight
    ensures Barred(ObservedAsync(s, spec, o, m.now, m.midnight), bar, until)
  {
  }

  /** A bar that nothing lifts stays, and refuses a reservation. */
  lemma {:induction false} BarStays(w: World, m: Moment, e: Event, cfg: Settings, p: ProviderId, bar: Bar, until: Time)
    requires Barred(StateOf(w, p), bar, until) && Enabled(w, m, e) && InTime(bar, m.now, until, cfg) && !Lifts(w, m, e, p, bar, until)
    ensures Barred(StateOf(Step(w, m, e, cfg), p), bar, until)
    ensures e.Begin? && e.spec.id == p ==> AttemptAfter(w, m, e, cfg) == Attempt(p, 0, Finished)
  {
    hide Settle, Operate, ObservedAsync, RecoverState, AvailableLocal;
    if Touched(w, e) == p {
      var s := StateOf(w, p);
      BarredState(s, bar, until, m.now, cfg);
      var r := RecoverState(s, m.now, cfg);
      match e
      case Ends(id, spec, ending) => SettlingKeepsBar(s, Held(w, id), spec, ending, m, cfg, bar, until);
      case Outside(_, op) => OperatingKeepsBar(s, op, m, cfg, bar, until);
      case Hears(_, spec, o) => HearingKeepsBar(r, spec, o, m, bar, until);
      case _ =>
    }
  }

  /** Every event of the run falls within the bar's time, and none lifts it. */
  ghost predicate Persists(w: World, es: seq<At>, cfg: Settings, p: ProviderId, bar: Bar, until: Time)
    requires RunOk(w, es, cfg)
    decreases |es|
  {
    es == [] || (InTime(bar, es[0].moment.now, until, cfg) && !Lifts(w, es[0].moment, es[0].event, p, bar, until)
                 && Persists(Step(w, es[0].moment, es[0].event, cfg), es[1..], cfg, p, bar, until))
  }

  /** Every reservation of `p` in the run is refused. */
  ghost predicate AllRefused(w: World, es: seq<At>, cfg: Settings, p: ProviderId)
    requires RunOk(w, es, cfg)
    decreases |es|
  {
    es == [] || (var At(m, e) := es[0];
                 && (e.Begin? && e.spec.id == p ==> AttemptAfter(w, m, e, cfg) == Attempt(p, 0, Finished))
                 && AllRefused(Step(w, m, e, cfg), es[1..], cfg, p))
  }

  /** In every interleaving a barred provider is refused until the bar's end. */
  lemma {:induction false} BarredIsRefused(w: World, es: seq<At>, cfg: Settings, p: ProviderId, bar: Bar, until: Time)
    requires RunOk(w, es, cfg) && Barred(StateOf(w, p), bar, until) && Persists(w, es, cfg, p, bar, until)
    ensures AllRefused(w, es, cfg, p) && Barred(StateOf(RunAll(w, es, cfg), p), bar, until)
    decreases |es|
  {
    hide Barred, Lifts, Step, AttemptAfter;
    if es != [] {
      BarStays(w, es[0].moment, es[0].event, cfg, p, bar, until);
      BarredIsRefused(Step(w, es[0].moment, es[0].event, cfg), es[1..], cfg, p, bar, until);
    }
  }

  // ---------- what starts a bar ----------

  /** The window of the provider's state is over. */
  predicate Due(s: QuotaState, now: Time) { s.resetAt.Some? && now >= s.resetAt.value }

  /** A refusal for a spent allowance, for billing, for the key or for the rate bars the provider at once. */
  lemma {:induction false} EndingBars(w: World, m: Moment, e: Event, cfg: Settings, p: ProviderId)
    requires About(w, m, e, p) && e.Ends?
    ensures var s := StateOf(Step(w, m, e, cfg), p);
            && (e.ending.QuotaExceeded? && !e.ending.modelScoped ==>
                  Barred(s, Spent, Returns(e.spec, e.ending.reset, m)) && s.resetAt == Some(Returns(e.spec, e.ending.reset, m)))
            && (e.ending.Billing? || e.ending.AuthenticationFailed? ==> Barred(s, Blocked, m.now))
            && (e.ending.RateLimited? && !e.ending.modelScoped ==> Barred(s, Waiting, e.ending.until))
  {
  }

  /** A refusal about one model alone, or about the request, bars nothing. */
  lemma {:induction false} ModelsBarNothing(w: World, m: Moment, e: Event, cfg: Settings, p: ProviderId, bar: Bar, until: Time)
    requires About(w, m, e, p) && e.Ends? && m.now < until
    requires (e.ending.QuotaExceeded? && e.ending.modelScoped) || (e.ending.RateLimited? && e.ending.modelScoped)
             || e.ending.SchemaRejected? || e.ending.TooLarge? || e.ending.NotSupported? || e.ending.ModelUnavailable?
             || e.ending.AccessDenied? || e.ending.Cancelled? || e.ending.Defect?
    requires !Barred(StateOf(w, p), bar, until) && StateOf(w, p).circuit != HALF_OPEN
    ensures !Barred(StateOf(Step(w, m, e, cfg), p), bar, until)
  {
  }

  /** A heard allowance with nothing left spends the provider, until the reset it names or the one already known. */
  lemma {:induction false} HearingSpends(w: World, m: Moment, e: Event, cfg: Settings, p: ProviderId)
    requires About(w, m, e, p) && e.Hears? && e.observation.remaining == Some(0)
    requires e.observation.limit.Some? && e.observation.limit.value >= 0
    ensures var s, q := StateOf(w, p), StateOf(Step(w, m, e, cfg), p);
            var known := s.exhausted && !Due(s, m.now);
            && q.resetAt.Some? && Barred(q, Spent, q.resetAt.value) && m.now < q.resetAt.value
            && (News(e.observation.reset, m.now) && !known ==> q.resetAt == e.observation.reset)
            && (known && s.resetAt.Some? ==> q.resetAt.value >= s.resetAt.value)
            && (News(e.observation.reset, m.now) ==> q.resetAt.value >= e.observation.reset.value)
            && (!News(e.observation.reset, m.now) ==>
                  q.resetAt == if s.resetAt.Some? && !Due(s, m.now) then s.resetAt else Some(Returns(e.spec, None, m)))
  {
  }

  /** A heard allowance with something left bars nothing and moves no reset of a spent provider. */
  lemma {:induction false} HearingBarsNothing(w: World, m: Moment, e: Event, cfg: Settings, p: ProviderId)
    requires About(w, m, e, p) && e.Hears? && e.observation.remaining != Some(0)
    ensures var s, q := StateOf(w, p), StateOf(Step(w, m, e, cfg), p);
            && (q.exhausted <==> s.exhausted && !Due(s, m.now))
            && (q.exhausted && s.resetAt.Some? ==> q.resetAt == s.resetAt)
            && (Informative(e.observation) && News(e.observation.reset, m.now) && !q.exhausted ==> q.resetAt == e.observation.reset)
  {
  }

  /**
   Exactly when a reservation gets through: the provider is not spent, not blocked, not
   waiting, its circuit is not resting and no probe is out, and, counted locally, a request is
   left.  Out of an open circuit it takes the half-open slot for its lease and five seconds.
   */
  lemma {:induction false} ReservedExactly(w: World, m: Moment, e: Event, cfg: Settings)
    requires Enabled(w, m, e) && e.Begin?
    ensures var s, q := StateOf(w, e.spec.id), StateOf(Step(w, m, e, cfg), e.spec.id);
            var got := AttemptAfter(w, m, e, cfg);
            && (got.phase != Finished <==>
                  && !(s.exhausted && !Due(s, m.now)) && !s.securityBlocked && m.now >= s.throttledUntil
                  && (if s.circuit == HALF_OPEN then m.now >= s.probeUntil && cfg.cooldown <= 0.0 else m.now >= s.blockedUntil)
                  && (!e.shared && e.spec.limit.Some? ==> (if Due(s, m.now) then 0 else s.used) < e.spec.limit.value))
            && (got.phase != Finished && s.circuit != CLOSED ==>
                  got.token == w.sequence + 1 && Owns(q, got.token) && q.probeUntil == m.now + e.lease + 5.0)
            && (got.phase != Finished && s.circuit == CLOSED ==> got.token == 0 && q.circuit == CLOSED)
            && (got.phase == Running ==> q.used == (if Due(s, m.now) then 0 else s.used) + 1)
  {
  }

  /** A probe that fails, and one whose lease runs out, rests the circuit again for a cooldown. */
  lemma {:induction false} ProbeReopens(w: World, m: Moment, e: Event, cfg: Settings, p: ProviderId)
    requires About(w, m, e, p) && StateOf(w, p).circuit == HALF_OPEN
    ensures e.Ends? && e.ending.OtherFailure? && Owner(w, e.id, p) ==> Barred(StateOf(Step(w, m, e, cfg), p), Tripped, m.now + cfg.cooldown)
    ensures e == Outside(p, Probes.Operator.Look) && m.now >= StateOf(w, p).probeUntil ==>
              Barred(StateOf(Step(w, m, e, cfg), p), Tripped, m.now + cfg.cooldown)
  {
  }

  /**
   A reply that closes the circuit, and an operator's unblock, start the breaker afresh: nothing
   is remembered and the circuit bars nobody.  The unblock also lifts a block and a wait, the
   reply neither.
   */
  lemma {:induction false} HealingFrees(w: World, m: Moment, e: Event, cfg: Settings, p: ProviderId)
    requires Heals(w, m, e, p) && StateOf(Step(w, m, e, cfg), p).circuit == CLOSED
    ensures var s, q := StateOf(w, p), StateOf(Step(w, m, e, cfg), p);
            && q.failures == [] && q.blockedUntil == 0.0
            && (q.securityBlocked <==> s.securityBlocked && !(e.Outside? && e.op == Unblock))
            && q.throttledUntil == (if e.Outside? && e.op == Unblock then 0.0 else s.throttledUntil)
            && (q.exhausted <==> s.exhausted && !Due(s, m.now))
  {
  }

  // ---------- the breaker ----------

  /** A failure of `p` is heard. */
  ghost predicate Fails(w: World, m: Moment, e: Event, p: ProviderId) {
    About(w, m, e, p) && ((e.Ends? && e.ending.OtherFailure?) || e == Outside(p, Stray(true)))
  }

  /** How many of the failures lie at or after `since`. */
  function CountSince(failures: seq<Time>, since: Time): nat {
    if failures == [] then 0 else CountSince(failures[..|failures| - 1], since) + if failures[|failures| - 1] >= since then 1 else 0
  }

  /** A failure now is one of at least `circuitFailures` within the circuit's window. */
  predicate Burst(heard: seq<Time>, now: Time, cfg: Settings) {
    CountSince(heard, now - cfg.circuitWindow) + 1 >= cfg.circuitFailures
  }

  /** Time does not run backwards, and nothing heals `p`. */
  ghost predicate Unhealed(w: World, since: Time, es: seq<At>, cfg: Settings, p: ProviderId)
    requires RunOk(w, es, cfg)
    decreases |es|
  {
    es == [] || (since <= es[0].moment.now && !Heals(w, es[0].moment, es[0].event, p)
                 && Unhealed(Step(w, es[0].moment, es[0].event, cfg), es[0].moment.now, es[1..], cfg, p))
  }

  function EndTime(since: Time, es: seq<At>): Time { if es == [] then since else es[|es| - 1].moment.now }

  /** The failures of `p` heard in the run, after those in `heard`. */
  ghost function Heard(w: World, es: seq<At>, cfg: Settings, p: ProviderId, heard: seq<Time>): seq<Time>
    requires RunOk(w, es, cfg)
    decreases |es|
  {
    if es == [] then heard
    else
      Heard(Step(w, es[0].moment, es[0].event, cfg), es[1..], cfg, p,
            heard + if Fails(w, es[0].moment, es[0].event, p) then [es[0].moment.now] else [])
  }

  /** Some failure of the run completes a burst. */
  ghost predicate SomeBurst(w: World, es: seq<At>, cfg: Settings, p: ProviderId, heard: seq<Time>)
    requires RunOk(w, es, cfg)
    decreases |es|
  {
    && es != []
    && var At(m, e) := es[0];
       var v := Step(w, m, e, cfg);
       if Fails(w, m, e, p) then Burst(heard, m.now, cfg) || SomeBurst(v, es[1..], cfg, p, heard + [m.now])
       else SomeBurst(v, es[1..], cfg, p, heard)
  }

  /** What the circuit remembers decides bursts as the whole history does, from `now` on. */
  ghost predicate Remembers(kept: seq<Time>, heard: seq<Time>, now: Time, cfg: Settings) {
    forall since | since >= now - cfg.circuitWindow :: CountSince(kept, since) == CountSince(heard, since)
  }

  lemma {:induction false} CountJoin(a: seq<Time>, b: seq<Time>, since: Time)
    ensures CountSince(a + b, since) == CountSince(a, since) + CountSince(b, since)
  {
    if b == [] {
      assert a + b == a;
    } else {
      assert (a + b)[..|a + b| - 1] == a + b[..|b| - 1];
      CountJoin(a, b[..|b| - 1], since);
    }
  }

  lemma {:induction false} RecentCount(failures: seq<Time>, from: Time, since: Time)
    requires since >= from
    ensures CountSince(Recent(failures, from), since) == CountSince(failures, since)
    ensures |Recent(failures, from)| == CountSince(failures, from)
  {
    if failures != [] {
      RecentCount(failures[1..], from, since);
      var first := if failures[0] >= from then [failures[0]] else [];
      CountJoin(first, Recent(failures[1..], from), since);
      CountJoin([failures[0]], failures[1..], since);
      CountJoin([failures[0]], failures[1..], from);
      assert [failures[0]] + failures[1..] == failures;
      assert [failures[0]][..0] == [];
    }
  }

  /** A failure of a closed circuit trips it exactly at a burst, and the memory goes on standing for the history. */
  lemma {:induction false} FailureTrips(w: World, m: Moment, e: Event, cfg: Settings, p: ProviderId, heard: seq<Time>)
    requires Fails(w, m, e, p) && StateOf(w, p).circuit == CLOSED && Remembers(StateOf(w, p).failures, heard, m.now, cfg)
    ensures var q := StateOf(Step(w, m, e, cfg), p);
            && (Burst(heard, m.now, cfg) ==> Barred(q, Tripped, m.now + cfg.cooldown))
            && (!Burst(heard, m.now, cfg) ==> q.circuit == CLOSED && Remembers(q.failures, heard + [m.now], m.now, cfg))
  {
    hide Recent, CountSince;
    var kept, from := StateOf(w, p).failures, m.now - cfg.circuitWindow;
    var q := StateOf(Step(w, m, e, cfg), p);
    assert q.failures == Recent(kept, from) + [m.now];
    RecentCount(kept, from, from);
    forall since | since >= from ensures CountSince(q.failures, since) == CountSince(heard + [m.now], since) {
      CountJoin(Recent(kept, from), [m.now], since);
      CountJoin(heard, [m.now], since);
      RecentCount(kept, from, since);
    }
  }

  lemma {:induction false} SettlingKeepsClosed(s: QuotaState, token: nat, spec: Spec, ending: Ending, m: Moment, cfg: Settings)
    requires s.circuit == CLOSED && !ending.Replied? && !ending.OtherFailure? && m.now < m.midnight
    ensures var q := Settle(s, token, spec, ending, m, cfg); q.circuit == CLOSED && q.failures == s.failures
  {
  }

  /** What is neither a failure nor a healing leaves a closed circuit and its memory alone. */
  lemma {:induction false} OthersKeepClosed(w: World, m: Moment, e: Event, cfg: Settings, p: ProviderId)
    requires Enabled(w, m, e) && !Fails(w, m, e, p) && !Heals(w, m, e, p) && StateOf(w, p).circuit == CLOSED
    ensures var q := StateOf(Step(w, m, e, cfg), p); q.circuit == CLOSED && q.failures == StateOf(w, p).failures
  {
    hide Settle, Recent;
    if e.Ends? && Touched(w, e) == p {
      SettlingKeepsClosed(StateOf(w, p), Held(w, e.id), e.spec, e.ending, m, cfg);
    }
  }

  lemma {:induction false} SettlingKeepsTripped(s: QuotaState, token: nat, spec: Spec, ending: Ending, m: Moment, cfg: Settings)
    requires s.circuit != CLOSED && !ending.Replied? && m.now < m.midnight
    ensures Settle(s, token, spec, ending, m, cfg).circuit != CLOSED
  {
  }

  /** Only a healing closes a circuit. */
  lemma {:induction false} OthersKeepTripped(w: World, m: Moment, e: Event, cfg: Settings, p: ProviderId)
    requires Enabled(w, m, e) && !Heals(w, m, e, p) && StateOf(w, p).circuit != CLOSED
    ensures StateOf(Step(w, m, e, cfg), p).circuit != CLOSED
  {
    hide Settle, Recent;
    if e.Ends? && Touched(w, e) == p {
      SettlingKeepsTripped(StateOf(w, p), Held(w, e.id), e.spec, e.ending, m, cfg);
    }
  }

  lemma {:induction false} TrippedStays(w: World, since: Time, es: seq<At>, cfg: Settings, p: ProviderId)
    requires RunOk(w, es, cfg) && Unhealed(w, since, es, cfg, p) && StateOf(w, p).circuit != CLOSED
    ensures StateOf(RunAll(w, es, cfg), p).circuit != CLOSED
    decreases |es|
  {
    hide Step, Heals;
    if es != [] {
      OthersKeepTripped(w, es[0].moment, es[0].event, cfg, p);
      TrippedStays(Step(w, es[0].moment, es[0].event, cfg), es[0].moment.now, es[1..], cfg, p);
    }
  }

  /**
   In every interleaving without a success or an operator's unblock, a closed circuit is
   closed at the end exactly if no failure heard on the way was one of at least
   `circuitFailures` within the circuit's window.
   */
  lemma {:induction false} ClosedExactlyWithoutBurst(w: World, since: Time, es: seq<At>, cfg: Settings, p: ProviderId, heard: seq<Time>)
    requires RunOk(w, es, cfg) && Unhealed(w, since, es, cfg, p) && StateOf(w, p).circuit == CLOSED
    requires Remembers(StateOf(w, p).failures, heard, since, cfg)
    ensures var q := StateOf(RunAll(w, es, cfg), p);
            && (q.circuit == CLOSED <==> !SomeBurst(w, es, cfg, p, heard))
            && (q.circuit == CLOSED ==> Remembers(q.failures, Heard(w, es, cfg, p, heard), EndTime(since, es), cfg))
    decreases |es|
  {
    hide Step, Heals, Fails, CountSince;
    if es != [] {
      var At(m, e) := es[0];
      var v := Step(w, m, e, cfg);
      if Fails(w, m, e, p) {
        FailureTrips(w, m, e, cfg, p, heard);
        if Burst(heard, m.now, cfg) {
          TrippedStays(v, m.now, es[1..], cfg, p);
        } else {
          ClosedExactlyWithoutBurst(v, m.now, es[1..], cfg, p, heard + [m.now]);
        }
      } else {
        OthersKeepClosed(w, m, e, cfg, p);
        ClosedExactlyWithoutBurst(v, m.now, es[1..], cfg, p, heard);
        assert heard + [] == heard;
      }
    }
  }

  /**
   The breaker, from any closed circuit: as long as no burst of failures came, the next failure
   opens it exactly if with that one at least `circuitFailures` failures lie within the
   circuit's window; then every reservation before a cooldown is over is refused, in every
   interleaving that brings no success and no unblock.
   */
  lemma {:induction false} BreakerTrips(w: World, since: Time, es: seq<At>, m: Moment, e: Event, after: seq<At>, cfg: Settings, p: ProviderId)
    requires RunOk(w, es, cfg) && Unhealed(w, since, es, cfg, p) && StateOf(w, p).circuit == CLOSED
    requires !SomeBurst(w, es, cfg, p, StateOf(w, p).failures) && EndTime(since, es) <= m.now
    requires var v := RunAll(w, es, cfg);
             Fails(v, m, e, p) && RunOk(Step(v, m, e, cfg), after, cfg)
             && Persists(Step(v, m, e, cfg), after, cfg, p, Tripped, m.now + cfg.cooldown)
    ensures var heard := Heard(w, es, cfg, p, StateOf(w, p).failures);
            var v := Step(RunAll(w, es, cfg), m, e, cfg);
            && (StateOf(v, p).circuit == OPEN <==> CountSince(heard, m.now - cfg.circuitWindow) + 1 >= cfg.circuitFailures)
            && (StateOf(v, p).circuit == OPEN ==> AllRefused(v, after, cfg, p))
  {
    hide Step, Heals, CountSince, Barred;
    var kept := StateOf(w, p).failures;
    ClosedExactlyWithoutBurst(w, since, es, cfg, p, kept);
    var heard := Heard(w, es, cfg, p, kept);
    FailureTrips(RunAll(w, es, cfg), m, e, cfg, p, heard);
    if Burst(heard, m.now, cfg) {
      var v := Step(RunAll(w, es, cfg), m, e, cfg);
      assert StateOf(v, p).circuit == OPEN by { BarIsOpen(StateOf(v, p), m.now + cfg.cooldown); }
      BarredIsRefused(v, after, cfg, p, Tripped, m.now + cfg.cooldown);
    }
  }

  lemma {:induction false} BarIsOpen(s: QuotaState, until: Time)
    requires Barred(s, Tripped, until)
    ensures s.circuit == OPEN
  {
  }
}

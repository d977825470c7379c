/**
 The governor's own request count (no shared ledger): its reservations, refunds and
 reports are a run of the window worlds of Windows.dfy, so the same safety holds for it.
 */
module LocalWindows {
  import opened Options
  import opened Ledger
  import opened Governor
  import W = Windows

  type Id = nat

  const SELF: App := "embedded"

  /** One provider's state, the next probe token, and the open reservations. */
  datatype Local = Local(state: QuotaState, sequence: nat, held: map<Id, Reservation>, settled: set<Id>)

  datatype Event =
    | Take(id: Id, lease: Time)
    | Give(id: Id)
    | Report(observation: Observation)
    | Spent(reset: Option<Time>)
    | Verdict(failed: bool, token: nat)
    | Slow(until: Time)
    | Review

  datatype Moment = Moment(now: Time, midnight: Time)

  ghost predicate Enabled(l: Local, m: Moment, e: Event) {
    && m.now < m.midnight
    && (e.Take? ==> e.id !in l.held)
    && (e.Give? ==> e.id in l.held && e.id !in l.settled)
  }

  function StateAfter(l: Local, spec: Spec, m: Moment, e: Event, cfg: Settings): QuotaState
    requires Enabled(l, m, e)
  {
    var r := RecoverState(l.state, m.now, cfg);
    match e
    case Take(_, lease) =>
      if AvailableLocal(r, spec, m.now, true)
      then Charge(ClaimProbe(r, l.sequence, lease, m.now), spec, m.now, m.midnight) else r
    case Give(id) => Refund(ReleaseSlot(r, l.held[id].probeToken), l.held[id])
    case Report(o) => Observed(r, spec, o, m.now, m.midnight)
    case Spent(reset) => Exhausted(r, ExhaustionReset(spec, reset, m.now, m.midnight), m.now, cfg)
    case Verdict(failed, token) => if failed then Failed(r, token, m.now, cfg) else Succeeded(r, token)
    case Slow(until) => Throttled(r, until, m.now, cfg)
    case Review => Unblocked(r)
  }

  function Step(l: Local, spec: Spec, m: Moment, e: Event, cfg: Settings): Local
    requires Enabled(l, m, e)
  {
    var r := RecoverState(l.state, m.now, cfg);
    var next := l.(state := StateAfter(l, spec, m, e, cfg));
    match e
    case Take(id, _) =>
      if !AvailableLocal(r, spec, m.now, true) then next
      else
        var token := ClaimedToken(r, l.sequence);
        next.(sequence := if token == 0 then l.sequence else token,
              held := l.held[id := Reservation(token, next.state.resetAt, None)])
    case Give(id) => next.(settled := l.settled + {id})
    case _ => next
  }

  /** No report leaves a running window's reset earlier. */
  ghost predicate KeepsReset(l: Local, spec: Spec, m: Moment, e: Event, cfg: Settings)
    requires Enabled(l, m, e)
  {
    var before := RecoverState(l.state, m.now, cfg).resetAt;
    var after := StateAfter(l, spec, m, e, cfg).resetAt;
    before.Some? ==> after.Some? && after.value >= before.value
  }

  // ---------- the window world behind it ----------

  ghost predicate SameCount(p: Pool, s: QuotaState) {
    p.used == s.used && p.exhausted == s.exhausted && p.resetAt == s.resetAt
  }

  ghost predicate Mirrors(w: W.World, l: Local) {
    && SameCount(w.pool, l.state)
    && w.tickets.Keys == l.held.Keys && w.settled == l.settled
    && forall id <- l.held :: w.tickets[id].stamp == l.held[id].localWindow
  }

  function Mirror(w: W.World, l: Local, spec: Spec, m: Moment, e: Event, cfg: Settings): W.Event
    requires Enabled(l, m, e)
  {
    var r := RecoverState(l.state, m.now, cfg);
    match e
    case Take(id, _) =>
      if AvailableLocal(r, spec, m.now, true)
      then W.Take(id, SELF, if spec.limit.Some? then Some(spec.limit.value as int) else None, spec.window, m.midnight)
      else W.Other(Look)
    case Give(id) => W.Give(id)
    case _ =>
      var after := StateAfter(l, spec, m, e, cfg);
      W.Adjust(Recover(w.pool, m.now).(used := after.used, exhausted := after.exhausted, resetAt := after.resetAt))
  }

  lemma {:induction false} MirrorTake(w: W.World, l: Local, spec: Spec, m: Moment, e: Event, cfg: Settings)
    requires Mirrors(w, l) && Enabled(l, m, e) && w.now <= m.now && e.Take?
    ensures var f := Mirror(w, l, spec, m, e, cfg);
            W.Allowed(w, m.now, f) && Mirrors(W.Step(w, m.now, f), Step(l, spec, m, e, cfg))
            && W.KeepsReset(w, m.now, f)
  {
  }

  lemma {:induction false} MirrorGive(w: W.World, l: Local, spec: Spec, m: Moment, e: Event, cfg: Settings)
    requires Mirrors(w, l) && Enabled(l, m, e) && w.now <= m.now && e.Give?
    ensures var f := Mirror(w, l, spec, m, e, cfg);
            W.Allowed(w, m.now, f) && Mirrors(W.Step(w, m.now, f), Step(l, spec, m, e, cfg))
            && W.KeepsReset(w, m.now, f)
  {
    var r := RecoverState(l.state, m.now, cfg);
    var a := ReleaseSlot(r, l.held[e.id].probeToken);
    assert SameCount(Recover(w.pool, m.now), r) && SameCount(Recover(w.pool, m.now), a);
    var reply := Apply(w.pool, m.now, Release(w.tickets[e.id].app, l.held[e.id].localWindow));
    assert SameCount(reply.pool, Refund(a, l.held[e.id]));
  }

  /** A report never lowers the count, and a reset it sets lies ahead. */
  lemma {:induction false} ReportRaises(r: QuotaState, spec: Spec, m: Moment, e: Event, cfg: Settings, l: Local)
    requires Enabled(l, m, e) && !e.Take? && !e.Give? && r == RecoverState(l.state, m.now, cfg)
    ensures var a := StateAfter(l, spec, m, e, cfg);
            a.used >= r.used && (r.resetAt.Some? ==> a.resetAt.Some?)
            && (a.resetAt.Some? && a.resetAt != r.resetAt ==> m.now < a.resetAt.value)
  {
  }

  lemma {:induction false} MirrorReport(w: W.World, l: Local, spec: Spec, m: Moment, e: Event, cfg: Settings)
    requires Mirrors(w, l) && Enabled(l, m, e) && w.now <= m.now && !e.Take? && !e.Give?
    requires KeepsReset(l, spec, m, e, cfg)
    ensures var f := Mirror(w, l, spec, m, e, cfg);
            W.Allowed(w, m.now, f) && Mirrors(W.Step(w, m.now, f), Step(l, spec, m, e, cfg))
            && W.KeepsReset(w, m.now, f)
  {
    var r := RecoverState(l.state, m.now, cfg);
    var p := Recover(w.pool, m.now);
    assert SameCount(p, r);
    var f := Mirror(w, l, spec, m, e, cfg);
    ReportRaises(r, spec, m, e, cfg, l);
    assert W.Reported(p, f.after, m.now);
  }

  datatype At = At(moment: Moment, event: Event)

  /** Events in order of time, each enabled, no reset brought forward. */
  ghost predicate RunOk(l: Local, since: Time, spec: Spec, es: seq<At>, cfg: Settings)
    decreases |es|
  {
    es == [] || (var At(m, e) := es[0];
                 since <= m.now && Enabled(l, m, e) && KeepsReset(l, spec, m, e, cfg)
                 && RunOk(Step(l, spec, m, e, cfg), m.now, spec, es[1..], cfg))
  }

  ghost function RunAll(l: Local, since: Time, spec: Spec, es: seq<At>, cfg: Settings): Local
    requires RunOk(l, since, spec, es, cfg)
    decreases |es|
  {
    if es == [] then l
    else RunAll(Step(l, spec, es[0].moment, es[0].event, cfg), es[0].moment.now, spec, es[1..], cfg)
  }

  /**
   Every run of the governor's own count under a locally counted limit is a window world
   in which the window safety of Windows.dfy holds.
   */
  lemma {:induction false} LocalWindowSafety(w: W.World, l: Local, spec: Spec, es: seq<At>, cfg: Settings)
    returns (v: W.World)
    requires spec.limit.Some? && spec.window.Some?
    requires Mirrors(w, l) && W.Stamped(w) && W.Counted(w, spec.limit.value) && RunOk(l, w.now, spec, es, cfg)
    ensures Mirrors(v, RunAll(l, w.now, spec, es, cfg)) && W.Stamped(v) && W.Counted(v, spec.limit.value)
    decreases |es|
  {
    if es == [] {
      v := w;
    } else {
      var At(m, e) := es[0];
      var f := Mirror(w, l, spec, m, e, cfg);
      match e {
        case Take(_, _) => MirrorTake(w, l, spec, m, e, cfg);
        case Give(_) => MirrorGive(w, l, spec, m, e, cfg);
        case _ => MirrorReport(w, l, spec, m, e, cfg);
      }
      W.CountedStep(w, m.now, f, spec.limit.value);
      v := LocalWindowSafety(W.Step(w, m.now, f), Step(l, spec, m, e, cfg), spec, es[1..], cfg);
    }
  }

  /** A new governor's state of a provider is the window world's start. */
  lemma {:induction false} FreshMirrorsStart(limit: nat)
    ensures Mirrors(W.START, Local(NEW_STATE, 0, map[], {})) && W.Stamped(W.START) && W.Counted(W.START, limit)
  {
    W.StartIsSafe(limit);
  }

  /** So whatever a new governor goes through, its count keeps within the limit. */
  lemma {:induction false} FreshGovernorIsSafe(spec: Spec, es: seq<At>, cfg: Settings) returns (v: W.World)
    requires spec.limit.Some? && spec.window.Some?
    requires RunOk(Local(NEW_STATE, 0, map[], {}), W.START.now, spec, es, cfg)
    ensures Mirrors(v, RunAll(Local(NEW_STATE, 0, map[], {}), W.START.now, spec, es, cfg))
    ensures W.Stamped(v) && W.Counted(v, spec.limit.value)
  {
    FreshMirrorsStart(spec.limit.value);
    v := LocalWindowSafety(W.START, Local(NEW_STATE, 0, map[], {}), spec, es, cfg);
  }

  // ---------- what a report leaves ----------

  /** No event of the run finds the window over, and nothing is given back. */
  ghost predicate SameWindow(l: Local, spec: Spec, es: seq<At>, cfg: Settings)
    decreases |es|
  {
    es == [] || (var At(m, e) := es[0];
                 && Enabled(l, m, e) && !e.Give? && (l.state.resetAt.Some? ==> m.now < l.state.resetAt.value)
                 && SameWindow(Step(l, spec, m, e, cfg), spec, es[1..], cfg))
  }

  /** How many reservations the run grants. */
  ghost function Taken(l: Local, spec: Spec, es: seq<At>, cfg: Settings): nat
    requires SameWindow(l, spec, es, cfg)
    decreases |es|
  {
    if es == [] then 0
    else
      var v := Step(l, spec, es[0].moment, es[0].event, cfg);
      (if v.held.Keys != l.held.Keys then 1 else 0) + Taken(v, spec, es[1..], cfg)
  }

  lemma {:induction false} TakenAreLeft(l: Local, spec: Spec, es: seq<At>, cfg: Settings)
    requires spec.limit.Some? && SameWindow(l, spec, es, cfg)
    ensures Taken(l, spec, es, cfg) <= Max(0, spec.limit.value - l.state.used)
    ensures l.state.exhausted ==> Taken(l, spec, es, cfg) == 0
    decreases |es|
  {
    hide Failed, Succeeded, Throttled, TakeReset;
    if es != [] {
      var At(m, e) := es[0];
      if !e.Take? {
        ReportRaises(RecoverState(l.state, m.now, cfg), spec, m, e, cfg, l);
        StaysSpent(l, spec, m, e, cfg);
      }
      TakenAreLeft(Step(l, spec, m, e, cfg), spec, es[1..], cfg);
    }
  }

  lemma {:induction false} StaysSpent(l: Local, spec: Spec, m: Moment, e: Event, cfg: Settings)
    requires Enabled(l, m, e) && !e.Take? && !e.Give?
    requires l.state.resetAt.Some? ==> m.now < l.state.resetAt.value
    ensures l.state.exhausted ==> StateAfter(l, spec, m, e, cfg).exhausted
  {
  }

  /**
   After a report the governor's own count grants at most what the report leaves until its
   window is over; after a report of nothing left, or a refusal for a spent allowance,
   nothing.
   */
  lemma {:induction false} ReportBoundsTaken(l: Local, spec: Spec, m: Moment, e: Event, es: seq<At>, cfg: Settings)
    requires spec.limit.Some? && Enabled(l, m, e) && SameWindow(Step(l, spec, m, e, cfg), spec, es, cfg)
    ensures e.Report? && e.observation.limit.Some? && e.observation.remaining.Some?
            && e.observation.remaining.value <= e.observation.limit.value ==>
              Taken(Step(l, spec, m, e, cfg), spec, es, cfg) <= Max(0, e.observation.remaining.value)
    ensures e.Report? && e.observation.remaining == Some(0) && e.observation.limit.Some? && e.observation.limit.value >= 0 ==>
              Taken(Step(l, spec, m, e, cfg), spec, es, cfg) == 0
    ensures e.Spent? ==> Taken(Step(l, spec, m, e, cfg), spec, es, cfg) == 0
  {
    TakenAreLeft(Step(l, spec, m, e, cfg), spec, es, cfg);
  }

  /** A report moves the count just as far as it must, and never below what was counted. */
  lemma {:induction false} ReportCounts(l: Local, spec: Spec, m: Moment, o: Observation, cfg: Settings)
    requires Enabled(l, m, Report(o)) && Informative(o)
    ensures var used, after := RecoverState(l.state, m.now, cfg).used, StateAfter(l, spec, m, Report(o), cfg).used;
            && (after == used || (spec.limit.Some? && after == spec.limit.value - o.remaining.value))
            && (spec.limit.None? ==> after == used)
            && (spec.limit.Some? ==> after >= used && after >= spec.limit.value - o.remaining.value)
  {
  }
}

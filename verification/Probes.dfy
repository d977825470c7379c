/**
 Half-open probe ownership over every interleaving of attempts (fair/embedded/quota.py and
 the attempt of fair/embedded/router.py).

 An attempt claims the slot before it waits for the ledger, so it moves through phases and
 any other event may happen in between: `Reserving` waits for the ledger, `Running` waits
 for the provider, `Settling` has an outcome but has not reached its `finally`, `Finished`
 is over.  A cancellation may hit any waiting phase.  A reply's allowance is taken in (`Hears`)
 before the ledger is told of it, so other events may also come between that and the
 reply's verdict on the provider's health.
 */
module Probes {
  import opened Options
  import opened Ledger
  import opened Governor

  type AttemptId = nat

  datatype Phase = Reserving | Running | Settling | Finished

  datatype Attempt = Attempt(provider: ProviderId, token: nat, phase: Phase)

  datatype World = World(states: map<ProviderId, QuotaState>, sequence: nat, attempts: map<AttemptId, Attempt>)

  /** How the provider call of an attempt ends: the handlers of `_attempt`, one by one. */
  datatype Ending =
    | Replied
    | Billing
    | QuotaExceeded(modelScoped: bool, reset: Option<Time>)
    | RateLimited(modelScoped: bool, until: Time)
    | SchemaRejected
    | TooLarge
    | NotSupported
    | ModelUnavailable
    | AccessDenied
    | AuthenticationFailed
    | Cancelled
    | Defect
    | OtherFailure

  /** What reaches a provider's state from outside the attempt's own slot. */
  datatype Operator = Look | Block | Unblock | Stray(failed: bool)

  datatype Event =
    | Begin(id: AttemptId, spec: Spec, lease: Time, shared: bool)
    | LedgerReplied(id: AttemptId, granted: bool)
    | ReserveCancelled(id: AttemptId)
    | Benched(id: AttemptId)
    | Hears(id: AttemptId, spec: Spec, observation: Observation)
    | Ends(id: AttemptId, spec: Spec, ending: Ending)
    | Finally(id: AttemptId)
    | Outside(provider: ProviderId, op: Operator)

  /** A moment: the clock and the next Pacific midnight. */
  datatype Moment = Moment(now: Time, midnight: Time)

  function StateOf(w: World, p: ProviderId): QuotaState {
    if p in w.states then w.states[p] else NEW_STATE
  }

  function Held(w: World, id: AttemptId): nat
    requires id in w.attempts
  {
    w.attempts[id].token
  }

  /** Whom an event touches. */
  function Touched(w: World, e: Event): ProviderId
    requires !e.Begin? && !e.Outside? ==> e.id in w.attempts
  {
    match e
    case Begin(_, spec, _, _) => spec.id
    case Outside(p, _) => p
    case LedgerReplied(id, _) => w.attempts[id].provider
    case ReserveCancelled(id) => w.attempts[id].provider
    case Benched(id) => w.attempts[id].provider
    case Hears(id, _, _) => w.attempts[id].provider
    case Ends(id, _, _) => w.attempts[id].provider
    case Finally(id) => w.attempts[id].provider
  }

  ghost predicate Enabled(w: World, m: Moment, e: Event) {
    && m.now < m.midnight
    && match e
       case Begin(id, _, _, _) => id !in w.attempts
       case LedgerReplied(id, _) => id in w.attempts && w.attempts[id].phase == Reserving
       case ReserveCancelled(id) => id in w.attempts && w.attempts[id].phase == Reserving
       case Benched(id) => id in w.attempts && w.attempts[id].phase == Running
       case Hears(id, spec, _) =>
         id in w.attempts && w.attempts[id].phase == Running && spec.id == w.attempts[id].provider
       case Ends(id, spec, _) =>
         id in w.attempts && w.attempts[id].phase == Running && spec.id == w.attempts[id].provider
       case Finally(id) => id in w.attempts && w.attempts[id].phase == Settling
       case Outside(_, _) => true
  }

  /** What a provider call's ending does to the provider's state, recovered first where the source does. */
  function Settle(s: QuotaState, token: nat, spec: Spec, ending: Ending, m: Moment, cfg: Settings): QuotaState
    requires m.now < m.midnight
  {
    var r := RecoverState(s, m.now, cfg);
    match ending
    case Replied => Succeeded(r, token)
    case Billing => r.(securityBlocked := true)
    case QuotaExceeded(modelScoped, reset) =>
      if modelScoped then s else Exhausted(r, ExhaustionReset(spec, reset, m.now, m.midnight), m.now, cfg)
    case RateLimited(modelScoped, until) => if modelScoped then s else Throttled(r, until, m.now, cfg)
    case SchemaRejected => s
    case TooLarge => ReleaseSlot(r, token)
    case NotSupported => ReleaseSlot(r, token)
    case ModelUnavailable => ReleaseSlot(r, token)
    case AccessDenied => ReleaseSlot(r, token)
    case AuthenticationFailed => r.(securityBlocked := true)
    case Cancelled => ReleaseSlot(r, token)
    case Defect => s
    case OtherFailure => Failed(r, token, m.now, cfg)
  }

  function Operate(s: QuotaState, op: Operator, m: Moment, cfg: Settings): QuotaState {
    var r := RecoverState(s, m.now, cfg);
    match op
    case Look => r
    case Block => r.(securityBlocked := true)
    case Unblock => Unblocked(r)
    case Stray(failed) => if failed then Failed(r, 0, m.now, cfg) else Succeeded(r, 0)
  }

  /** The touched provider's state after the event. */
  function StateAfter(w: World, m: Moment, e: Event, cfg: Settings): QuotaState
    requires Enabled(w, m, e)
  {
    var s := StateOf(w, Touched(w, e));
    var r := RecoverState(s, m.now, cfg);
    match e
    case Begin(_, spec, lease, shared) =>
      if !AvailableLocal(r, spec, m.now, !shared) then r
      else if shared then ClaimProbe(r, w.sequence, lease, m.now)
      else Charge(ClaimProbe(r, w.sequence, lease, m.now), spec, m.now, m.midnight)
    case LedgerReplied(id, granted) => if granted then s.(used := s.used + 1) else ReleaseSlot(s, Held(w, id))
    case ReserveCancelled(id) => ReleaseSlot(s, Held(w, id))
    case Benched(id) => ReleaseSlot(r, Held(w, id))
    case Hears(_, spec, observation) => ObservedAsync(r, spec, observation, m.now, m.midnight)
    case Ends(id, spec, ending) => Settle(s, Held(w, id), spec, ending, m, cfg)
    case Finally(id) => ReleaseSlot(r, Held(w, id))
    case Outside(_, op) => Operate(s, op, m, cfg)
  }

  function AttemptAfter(w: World, m: Moment, e: Event, cfg: Settings): Attempt
    requires Enabled(w, m, e) && !e.Outside?
  {
    match e
    case Begin(_, spec, _, shared) =>
      var r := RecoverState(StateOf(w, spec.id), m.now, cfg);
      if !AvailableLocal(r, spec, m.now, !shared) then Attempt(spec.id, 0, Finished)
      else Attempt(spec.id, ClaimedToken(r, w.sequence), if shared then Reserving else Running)
    case LedgerReplied(id, granted) => w.attempts[id].(phase := if granted then Running else Finished)
    case ReserveCancelled(id) => w.attempts[id].(phase := Finished)
    case Benched(id) => w.attempts[id].(phase := Finished)
    case Hears(id, _, _) => w.attempts[id]
    case Ends(id, _, _) => w.attempts[id].(phase := Settling)
    case Finally(id) => w.attempts[id].(phase := Finished)
  }

  function Step(w: World, m: Moment, e: Event, cfg: Settings): World
    requires Enabled(w, m, e)
  {
    var states := w.states[Touched(w, e) := StateAfter(w, m, e, cfg)];
    if e.Outside? then w.(states := states)
    else
      var a := AttemptAfter(w, m, e, cfg);
      World(states, if e.Begin? && a.token != 0 then a.token else w.sequence, w.attempts[e.id := a])
  }

  // ---------- ownership ----------

  ghost predicate Owner(w: World, id: AttemptId, p: ProviderId) {
    id in w.attempts && w.attempts[id].provider == p && Owns(StateOf(w, p), w.attempts[id].token)
  }

  /** A half-open slot carries a token already handed out, and an unfinished attempt holds it. */
  ghost predicate SlotHeld(w: World, p: ProviderId) {
    StateOf(w, p).circuit == HALF_OPEN ==>
      && 0 < StateOf(w, p).probeToken <= w.sequence
      && exists id :: Owner(w, id, p) && w.attempts[id].phase != Finished
  }

  /** Tokens are handed out once, in order. */
  ghost predicate TokensFresh(w: World) {
    && (forall id <- w.attempts :: w.attempts[id].token <= w.sequence)
    && (forall i, j | i in w.attempts && j in w.attempts && w.attempts[i].token == w.attempts[j].token != 0 :: i == j)
  }

  /** No finished attempt still owns its provider's slot. */
  ghost predicate NoneLeft(w: World) {
    forall id | id in w.attempts && w.attempts[id].phase == Finished :: !Owner(w, id, w.attempts[id].provider)
  }

  ghost predicate ProbeSafe(w: World) {
    TokensFresh(w) && NoneLeft(w) && forall p :: SlotHeld(w, p)
  }

  lemma {:induction false} TokensFreshStep(w: World, m: Moment, e: Event, cfg: Settings)
    requires TokensFresh(w) && Enabled(w, m, e)
    ensures TokensFresh(Step(w, m, e, cfg))
  {
  }

  /** Observing an allowance leaves the circuit and its slot alone. */
  lemma {:induction false} ObservingKeepsSlot(s: QuotaState, spec: Spec, o: Observation, m: Moment)
    requires m.now < m.midnight
    ensures var a := ObservedAsync(s, spec, o, m.now, m.midnight);
            a.circuit == s.circuit && a.probeToken == s.probeToken
  {
  }

  /** No ending makes a slot half-open; one that stays so keeps its token. */
  lemma {:induction false} SettleKeepsToken(s: QuotaState, token: nat, spec: Spec, ending: Ending, m: Moment, cfg: Settings)
    requires m.now < m.midnight
    ensures var a := Settle(s, token, spec, ending, m, cfg);
            a.circuit == HALF_OPEN ==> s.circuit == HALF_OPEN && a.probeToken == s.probeToken
  {
  }

  /** An event never makes a slot half-open except by claiming it with a new token. */
  lemma {:induction false} OnlyClaims(w: World, m: Moment, e: Event, cfg: Settings)
    requires Enabled(w, m, e)
    ensures var s := StateOf(w, Touched(w, e));
            var a := StateAfter(w, m, e, cfg);
            a.circuit == HALF_OPEN ==>
              (s.circuit == HALF_OPEN && a.probeToken == s.probeToken)
              || (e.Begin? && a.probeToken == w.sequence + 1 == AttemptAfter(w, m, e, cfg).token
                  && AttemptAfter(w, m, e, cfg).phase != Finished)
  {
    if e.Ends? {
      SettleKeepsToken(StateOf(w, Touched(w, e)), Held(w, e.id), e.spec, e.ending, m, cfg);
    } else if e.Hears? {
      ObservingKeepsSlot(RecoverState(StateOf(w, Touched(w, e)), m.now, cfg), e.spec, e.observation, m);
    }
  }

  /** The event that finishes an attempt leaves the slot free of its token. */
  lemma {:induction false} FinishReleases(w: World, m: Moment, e: Event, cfg: Settings)
    requires Enabled(w, m, e) && !e.Outside? && AttemptAfter(w, m, e, cfg).phase == Finished
    ensures !Owns(StateAfter(w, m, e, cfg), AttemptAfter(w, m, e, cfg).token)
  {
  }

  lemma {:induction false} NoneLeftStep(w: World, m: Moment, e: Event, cfg: Settings)
    requires ProbeSafe(w) && Enabled(w, m, e)
    ensures NoneLeft(Step(w, m, e, cfg))
  {
    var v := Step(w, m, e, cfg);
    OnlyClaims(w, m, e, cfg);
    forall id | id in v.attempts && v.attempts[id].phase == Finished
      ensures !Owner(v, id, v.attempts[id].provider)
    {
      if !e.Outside? && id == e.id {
        FinishReleases(w, m, e, cfg);
      } else {
        assert !Owner(w, id, w.attempts[id].provider);
      }
    }
  }

  lemma {:induction false} SlotHeldStep(w: World, m: Moment, e: Event, cfg: Settings, p: ProviderId)
    requires ProbeSafe(w) && Enabled(w, m, e) && NoneLeft(Step(w, m, e, cfg))
    ensures SlotHeld(Step(w, m, e, cfg), p)
  {
    var v := Step(w, m, e, cfg);
    assert SlotHeld(w, p);
    if StateOf(v, p).circuit == HALF_OPEN {
      OnlyClaims(w, m, e, cfg);
      if e.Begin? && p == e.spec.id && StateOf(v, p).probeToken == w.sequence + 1 {
        assert Owner(v, e.id, p);
      } else {
        var id :| Owner(w, id, p) && w.attempts[id].phase != Finished;
        assert Owner(v, id, p);
      }
    }
  }

  lemma {:induction false} ProbeSafeStep(w: World, m: Moment, e: Event, cfg: Settings)
    requires ProbeSafe(w) && Enabled(w, m, e)
    ensures ProbeSafe(Step(w, m, e, cfg))
  {
    TokensFreshStep(w, m, e, cfg);
    NoneLeftStep(w, m, e, cfg);
    forall p ensures SlotHeld(Step(w, m, e, cfg), p) {
      SlotHeldStep(w, m, e, cfg, p);
    }
  }

  /** At most one attempt owns a provider's slot. */
  lemma {:induction false} OneOwner(w: World, p: ProviderId, i: AttemptId, j: AttemptId)
    requires ProbeSafe(w) && Owner(w, i, p) && Owner(w, j, p)
    ensures i == j
  {
  }

  /**
   A slot whose lease still runs closes only through its owner's reply or an operator's
   unblock.  (A lease that ran out is first taken back: see `ReplyCloses`.)
   */
  lemma {:induction false} ClosesOnlyByOwner(w: World, m: Moment, e: Event, cfg: Settings, p: ProviderId)
    requires ProbeSafe(w) && Enabled(w, m, e)
    requires StateOf(w, p).circuit == HALF_OPEN && m.now < StateOf(w, p).probeUntil
    requires StateOf(Step(w, m, e, cfg), p).circuit == CLOSED
    ensures (e.Ends? && e.ending.Replied? && Owner(w, e.id, p)) || e == Outside(p, Unblock)
  {
    assert SlotHeld(w, p);
    if e.Hears? && Touched(w, e) == p {
      ObservingKeepsSlot(RecoverState(StateOf(w, p), m.now, cfg), e.spec, e.observation, m);
    }
  }

  /**
   When a provider's reply closes the circuit: exactly when no running probe of another
   attempt holds the slot.  So a late reply from before the outage does close an OPEN
   circuit, and a slot whose lease is over; only a running half-open slot is guarded.
   */
  lemma {:induction false} ReplyCloses(w: World, m: Moment, e: Event, cfg: Settings)
    requires ProbeSafe(w) && Enabled(w, m, e) && e.Ends? && e.ending.Replied?
    ensures var p := w.attempts[e.id].provider;
            StateOf(Step(w, m, e, cfg), p).circuit == CLOSED <==>
              StateOf(w, p).circuit != HALF_OPEN || m.now >= StateOf(w, p).probeUntil || Owner(w, e.id, p)
  {
    var p := w.attempts[e.id].provider;
    var r := RecoverState(StateOf(w, p), m.now, cfg);
    assert SlotHeld(w, p);
    assert StateOf(Step(w, m, e, cfg), p) == Succeeded(r, Held(w, e.id));
  }

  datatype At = At(moment: Moment, event: Event)

  ghost predicate RunOk(w: World, es: seq<At>, cfg: Settings)
    decreases |es|
  {
    es == [] || (Enabled(w, es[0].moment, es[0].event)
                 && RunOk(Step(w, es[0].moment, es[0].event, cfg), es[1..], cfg))
  }

  ghost function RunAll(w: World, es: seq<At>, cfg: Settings): World
    requires RunOk(w, es, cfg)
    decreases |es|
  {
    if es == [] then w else RunAll(Step(w, es[0].moment, es[0].event, cfg), es[1..], cfg)
  }

  /**
   In every run from a fresh governor: one owner at most, the owner unfinished, every
   half-open slot owned, no token used twice.
   */
  lemma {:induction false} ProbeSafety(w: World, es: seq<At>, cfg: Settings)
    requires ProbeSafe(w) && RunOk(w, es, cfg)
    ensures ProbeSafe(RunAll(w, es, cfg))
    decreases |es|
  {
    if es != [] {
      ProbeSafeStep(w, es[0].moment, es[0].event, cfg);
      ProbeSafety(Step(w, es[0].moment, es[0].event, cfg), es[1..], cfg);
    }
  }

  lemma {:induction false} FreshIsSafe()
    ensures ProbeSafe(World(map[], 0, map[]))
  {
  }

  // ---------- the two orders of observing, in every run ----------

  /** Whoever is exhausted knows when it recovers. */
  ghost predicate AllRecover(w: World) {
    forall p :: KnowsRecovery(StateOf(w, p))
  }

  lemma {:induction false} SettleRecovers(s: QuotaState, token: nat, spec: Spec, ending: Ending, m: Moment, cfg: Settings)
    requires KnowsRecovery(s) && m.now < m.midnight
    ensures KnowsRecovery(Settle(s, token, spec, ending, m, cfg))
  {
  }

  lemma {:induction false} AllRecoverStep(w: World, m: Moment, e: Event, cfg: Settings)
    requires AllRecover(w) && Enabled(w, m, e)
    ensures AllRecover(Step(w, m, e, cfg))
  {
    hide Settle;
    var s := StateOf(w, Touched(w, e));
    assert KnowsRecovery(s);
    if e.Ends? {
      SettleRecovers(s, Held(w, e.id), e.spec, e.ending, m, cfg);
    }
    assert KnowsRecovery(StateAfter(w, m, e, cfg));
    forall p ensures KnowsRecovery(StateOf(Step(w, m, e, cfg), p)) {
      assert KnowsRecovery(StateOf(w, p));
    }
  }

  /**
   In every run from states that know their recovery, an observation taken in by `observe`
   or by `observe_async` leaves any provider in the same state.
   */
  lemma {:induction false} OrdersAgreeInEveryRun(w: World, es: seq<At>, cfg: Settings, spec: Spec, o: Observation, m: Moment)
    requires AllRecover(w) && RunOk(w, es, cfg) && m.now < m.midnight
    ensures AllRecover(RunAll(w, es, cfg))
    ensures var s := RecoverState(StateOf(RunAll(w, es, cfg), spec.id), m.now, cfg);
            Observed(s, spec, o, m.now, m.midnight) == ObservedAsync(s, spec, o, m.now, m.midnight)
    decreases |es|
  {
    if es != [] {
      AllRecoverStep(w, es[0].moment, es[0].event, cfg);
      OrdersAgreeInEveryRun(Step(w, es[0].moment, es[0].event, cfg), es[1..], cfg, spec, o, m);
    } else {
      var s := StateOf(w, spec.id);
      assert KnowsRecovery(s);
      ObserveOrders(RecoverState(s, m.now, cfg), spec, o, m.now, m.midnight);
    }
  }
}

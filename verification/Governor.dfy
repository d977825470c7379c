/**
 The per-process quota governor (fair/embedded/quota.py, MemoryQuotaGovernor): what each
 operation does to one provider's state.  The clock's reading is a parameter `now`.

 The functions specify the operations; class `MemoryQuotaGovernor` performs them on the
 table of states.  Half-open probes over all interleavings are in Probes.dfy.
 */
module Governor {
  import opened Options
  import opened Ledger

  type ProviderId = string

  datatype Circuit = CLOSED | OPEN | HALF_OPEN

  datatype Settings = Settings(cooldown: Time, timeout: Time, circuitWindow: Time, circuitFailures: nat)

  datatype Spec = Spec(id: ProviderId, limit: Option<nat>, window: Option<Window>)

  /** What a provider said about its allowance; a reset that is not finite counts as none. */
  datatype Observation = Observation(limit: Option<int>, remaining: Option<int>, reset: Option<Time>)

  datatype QuotaState = QuotaState(
    used: nat, exhausted: bool, securityBlocked: bool, blockedUntil: Time, throttledUntil: Time,
    resetAt: Option<Time>, circuit: Circuit, probeUntil: Time, probeToken: nat, failures: seq<Time>)

  const NEW_STATE := QuotaState(0, false, false, 0.0, 0.0, None, CLOSED, 0.0, 0, [])
  const EXHAUSTION_RETRY: Time := 3600.0

  /** What an attempt hands back to undo its reservation; token 0 is no probe. */
  datatype Reservation = Reservation(probeToken: nat, localWindow: Option<Time>, poolWindow: Option<Time>)

  function RecoverState(s: QuotaState, now: Time, cfg: Settings): QuotaState {
    var a := if s.resetAt.Some? && now >= s.resetAt.value
             then s.(used := 0, exhausted := false, resetAt := None) else s;
    if a.circuit == HALF_OPEN && now >= a.probeUntil
    then a.(circuit := OPEN, blockedUntil := now + cfg.cooldown, probeUntil := 0.0, probeToken := 0) else a
  }

  predicate AvailableLocal(s: QuotaState, spec: Spec, now: Time, countLocally: bool) {
    && !s.exhausted && !s.securityBlocked && s.circuit != HALF_OPEN
    && now >= s.blockedUntil && now >= s.throttledUntil
    && (countLocally && spec.limit.Some? ==> s.used < spec.limit.value)
  }

  /** The state after taking the half-open slot with the next token, if the circuit is open. */
  function ClaimProbe(s: QuotaState, sequence: nat, lease: Time, now: Time): QuotaState {
    if s.circuit != OPEN then s
    else s.(circuit := HALF_OPEN, probeToken := sequence + 1, probeUntil := now + lease + 5.0)
  }

  function ClaimedToken(s: QuotaState, sequence: nat): nat {
    if s.circuit != OPEN then 0 else sequence + 1
  }

  /** `token` holds the half-open slot. */
  predicate Owns(s: QuotaState, token: nat) {
    token != 0 && s.circuit == HALF_OPEN && s.probeToken == token
  }

  function ReleaseSlot(s: QuotaState, token: nat): QuotaState {
    if Owns(s, token) then s.(circuit := OPEN, probeUntil := 0.0, probeToken := 0) else s
  }

  function OpenCircuit(s: QuotaState, now: Time, cfg: Settings): QuotaState {
    s.(circuit := OPEN, blockedUntil := now + cfg.cooldown, probeUntil := 0.0, probeToken := 0)
  }

  /** Count one request, starting a window for a locally counted limit. */
  function Charge(s: QuotaState, spec: Spec, now: Time, midnight: Time): QuotaState
    requires now < midnight
  {
    s.(used := s.used + 1,
       resetAt := if s.resetAt.None? && spec.limit.Some? && spec.window.Some?
                  then Some(NextWindowReset(spec.window.value, now, midnight)) else s.resetAt)
  }

  function Refund(s: QuotaState, held: Reservation): QuotaState {
    if s.resetAt == held.localWindow then s.(used := Less(s.used)) else s
  }

  function Recent(failures: seq<Time>, since: Time): seq<Time> {
    if failures == [] then []
    else (if failures[0] >= since then [failures[0]] else []) + Recent(failures[1..], since)
  }

  predicate StaleOutcome(s: QuotaState, token: nat) {
    s.circuit == HALF_OPEN && s.probeToken != token
  }

  function Failed(s: QuotaState, token: nat, now: Time, cfg: Settings): QuotaState {
    if StaleOutcome(s, token) then s
    else
      var failures := Recent(s.failures, now - cfg.circuitWindow) + [now];
      var a := s.(failures := failures);
      if s.circuit == HALF_OPEN || |failures| >= cfg.circuitFailures then OpenCircuit(a, now, cfg) else a
  }

  function Succeeded(s: QuotaState, token: nat): QuotaState {
    if StaleOutcome(s, token) then s
    else s.(failures := [], circuit := CLOSED, probeUntil := 0.0, probeToken := 0, blockedUntil := 0.0)
  }

  /** `until` comes from the throttle rule (Backoff.dfy). */
  function Throttled(s: QuotaState, until: Time, now: Time, cfg: Settings): QuotaState {
    var a := if s.circuit == HALF_OPEN then OpenCircuit(s, now, cfg) else s;
    a.(throttledUntil := Later(a.throttledUntil, until))
  }

  function DefaultReset(spec: Spec, now: Time, midnight: Time): (reset: Time)
    requires now < midnight
    ensures now < reset
  {
    if spec.window.Some? then NextWindowReset(spec.window.value, now, midnight) else now + EXHAUSTION_RETRY
  }

  /** The provider's own reset if it lies ahead, else the window's. */
  function ExhaustionReset(spec: Spec, reset: Option<Time>, now: Time, midnight: Time): (r: Time)
    requires now < midnight
    ensures now < r
  {
    if reset.Some? && reset.value > now then reset.value else DefaultReset(spec, now, midnight)
  }

  function Exhausted(s: QuotaState, reset: Time, now: Time, cfg: Settings): QuotaState {
    var a := s.(exhausted := true, resetAt := Some(reset));
    if a.circuit == HALF_OPEN then OpenCircuit(a, now, cfg) else a
  }

  predicate Informative(o: Observation) {
    o.remaining.Some? && o.limit.Some? && o.remaining.value <= o.limit.value
  }

  function CountedUsed(s: QuotaState, spec: Spec, remaining: int): (used: nat)
    ensures used >= s.used
  {
    if spec.limit.None? then s.used
    else Max(s.used, spec.limit.value - (if remaining <= spec.limit.value then remaining else spec.limit.value))
  }

  /** A zero-remaining report marks the pool spent and makes sure it knows when it recovers. */
  function MarkSpent(s: QuotaState, spec: Spec, remaining: int, now: Time, midnight: Time): QuotaState
    requires now < midnight
  {
    if remaining != 0 then s
    else s.(exhausted := true,
            resetAt := if s.resetAt.None? then Some(DefaultReset(spec, now, midnight)) else s.resetAt)
  }

  /** A reported reset: first news overrides, a second exhaustion report only moves it later. */
  function TakeReset(s: QuotaState, wasExhausted: bool, remaining: int, reset: Option<Time>, now: Time): QuotaState {
    if reset.None? || !(now < reset.value <= now + DAY) then s
    else if !wasExhausted || s.resetAt.None? then s.(resetAt := reset)
    else if remaining == 0 then s.(resetAt := Some(Later(s.resetAt.value, reset.value)))
    else s
  }

  /** `observe`: mark the pool spent, then take the reported reset. */
  function Observed(s: QuotaState, spec: Spec, o: Observation, now: Time, midnight: Time): QuotaState
    requires now < midnight
  {
    if !Informative(o) then s else
    var a := s.(used := CountedUsed(s, spec, o.remaining.value));
    TakeReset(MarkSpent(a, spec, o.remaining.value, now, midnight), s.exhausted, o.remaining.value, o.reset, now)
  }

  /** `observe_async`: take the reported reset, then mark the pool spent. */
  function ObservedAsync(s: QuotaState, spec: Spec, o: Observation, now: Time, midnight: Time): QuotaState
    requires now < midnight
  {
    if !Informative(o) then s else
    var a := s.(used := CountedUsed(s, spec, o.remaining.value));
    MarkSpent(TakeReset(a, s.exhausted, o.remaining.value, o.reset, now), spec, o.remaining.value, now, midnight)
  }

  /** `unblock_security` leaves `probeToken` and `probeUntil` behind. */
  function Unblocked(s: QuotaState): QuotaState {
    s.(securityBlocked := false, failures := [], circuit := CLOSED, blockedUntil := 0.0, throttledUntil := 0.0)
  }

  // ---------- the two orders of observing ----------

  /** An exhausted provider knows when it recovers. */
  predicate KnowsRecovery(s: QuotaState) {
    s.exhausted ==> s.resetAt.Some?
  }

  /**
   The synchronous and the asynchronous observation end in the same state exactly when the
   provider's exhaustion came with a reset, or the report does not put an earlier reset
   against FAIR's own.
   */
  lemma {:induction false} ObserveOrders(s: QuotaState, spec: Spec, o: Observation, now: Time, midnight: Time)
    requires now < midnight
    ensures Observed(s, spec, o, now, midnight) == ObservedAsync(s, spec, o, now, midnight) <==>
              (KnowsRecovery(s) || !Informative(o) || o.remaining.value != 0 || o.reset.None?
               || !(now < o.reset.value <= now + DAY) || DefaultReset(spec, now, midnight) <= o.reset.value)
  {
  }

  // ---------- what the shared ledger is told ----------

  function LedgerLimit(spec: Spec): Option<int> { if spec.limit.Some? then Some(spec.limit.value as int) else None }

  function ReserveCall(spec: Spec, app: App, midnight: Time): Call { Reserve(app, LedgerLimit(spec), spec.window, midnight) }

  /** A zero-remaining report carries the reset the governor settled on, any other the provider's own. */
  function ReportCall(o: Observation, after: QuotaState): Call {
    Call.Observe(o.limit, o.remaining, if o.remaining == Some(0) then after.resetAt else o.reset)
  }

  /** The table after a transaction that came through, or did not. */
  function Told(pools: map<PoolId, Pool>, pool: PoolId, c: Call, now: Time, up: bool): map<PoolId, Pool>
    requires CallOk(c, now)
  {
    if up && Usable(c, now) then pools[pool := Apply(if pool in pools then pools[pool] else FRESH, now, c).pool] else pools
  }

  /** A reservation the governor makes in the ledger is granted only below the provider's own limit, and stays within it. */
  lemma {:induction false} LedgerKeepsLimit(pools: map<PoolId, Pool>, pool: PoolId, spec: Spec, app: App, now: Time, midnight: Time, before: Pool)
    requires now < midnight && before == Recover(if pool in pools then pools[pool] else FRESH, now)
    ensures var call := ReserveCall(spec, app, midnight);
            var after := Told(pools, pool, call, now, true);
            && pool in after && after[pool].used == before.used + (if Apply(before, now, call).granted then 1 else 0)
            && (Apply(before, now, call).granted <==> !before.exhausted && (spec.limit.Some? ==> before.used < spec.limit.value))
            && (Apply(before, now, call).granted ==>
                  && UsedBy(after[pool], app) == UsedBy(before, app) + 1
                  && (before.resetAt.None? && spec.limit.Some? && spec.window.Some? ==>
                        after[pool].resetAt == Some(NextWindowReset(spec.window.value, now, midnight))))
  {
  }

  /**
   When a report of nothing left reaches the ledger: the pool is spent afterwards exactly if it
   was, if it knew a reset, or if the reset the governor settled on is within a day.
   */
  lemma {:induction false} ZeroReachesLedger(p: Pool, s: QuotaState, spec: Spec, o: Observation, now: Time, midnight: Time)
    requires now < midnight && Informative(o) && o.remaining == Some(0) && (s.resetAt.Some? ==> now < s.resetAt.value)
    ensures var after := Observed(s, spec, o, now, midnight);
            var r, q := Recover(p, now), Apply(p, now, ReportCall(o, after)).pool;
            && after.resetAt.Some? && now < after.resetAt.value
            && (q.exhausted <==> r.exhausted || r.resetAt.Some? || after.resetAt.value <= now + DAY)
            && (!r.exhausted && after.resetAt.value <= now + DAY ==> q.resetAt == after.resetAt)
            && q.used >= o.limit.value
  {
  }

  /** A report of something left reaches the ledger as the provider made it. */
  lemma {:induction false} RestReachesLedger(p: Pool, s: QuotaState, spec: Spec, o: Observation, now: Time, midnight: Time)
    requires now < midnight && Informative(o) && o.remaining != Some(0)
    ensures var r, q := Recover(p, now), Apply(p, now, ReportCall(o, Observed(s, spec, o, now, midnight))).pool;
            && (q.exhausted <==> r.exhausted) && q.used == Max(r.used, o.limit.value - o.remaining.value)
            && (!r.exhausted && o.reset.Some? && now < o.reset.value <= now + DAY ==> q.resetAt == o.reset)
            && (r.exhausted || o.reset.None? ==> q.resetAt == r.resetAt)
  {
  }

  // ---------- the table of providers ----------

  const NOTHING_HELD := Reservation(0, None, None)

  /**
   `ledger` is null for a process on its own.  `up` says whether the ledger's transaction
   comes through in a call; one that fails counts as refused.
   */
  class MemoryQuotaGovernor {
    const cfg: Settings
    const ledger: SharedQuotaLedger?
    const poolOf: ProviderId -> PoolId
    var states: map<ProviderId, QuotaState>
    var probeSequence: nat

    constructor (cfg: Settings, ledger: SharedQuotaLedger?, poolOf: ProviderId -> PoolId)
      ensures this.cfg == cfg && this.ledger == ledger && this.poolOf == poolOf && states == map[] && probeSequence == 0
    {
      this.cfg, this.ledger, this.poolOf := cfg, ledger, poolOf;
      states := map[];
      probeSequence := 0;
    }

    ghost function Shared(): set<object> { if ledger == null then {} else {ledger} }

    /** What `_state` returns: the provider's recovered state, or a new one. */
    function Current(id: ProviderId, now: Time): QuotaState
      reads this
    {
      RecoverState(if id in states then states[id] else NEW_STATE, now, cfg)
    }

    method Load(id: ProviderId, now: Time) returns (s: QuotaState)
      modifies this`states
      ensures s == old(Current(id, now)) && states == old(states)[id := s]
    {
      s := if id in states then states[id] else NEW_STATE;
      if s.resetAt.Some? && now >= s.resetAt.value {
        s := s.(used := 0, exhausted := false, resetAt := None);
      }
      if s.circuit == HALF_OPEN && now >= s.probeUntil {
        s := s.(circuit := OPEN, blockedUntil := now + cfg.cooldown);
        s := s.(probeUntil := 0.0, probeToken := 0);
      }
      states := states[id := s];
    }

    /** The part of a reservation before the ledger is asked: refuse, or claim the slot. */
    method BeginReserve(spec: Spec, lease: Time, now: Time, countLocally: bool) returns (ok: bool, token: nat)
      modifies this
      ensures var s := old(Current(spec.id, now));
              && ok == AvailableLocal(s, spec, now, countLocally)
              && token == (if ok then ClaimedToken(s, old(probeSequence)) else 0)
              && states == old(states)[spec.id := if ok then ClaimProbe(s, old(probeSequence), lease, now) else s]
              && probeSequence == old(probeSequence) + (if token == 0 then 0 else 1)
    {
      var s := Load(spec.id, now);
      if !AvailableLocal(s, spec, now, countLocally) {
        return false, 0;
      }
      if s.circuit != OPEN {
        return true, 0;
      }
      probeSequence := probeSequence + 1;
      s := s.(circuit := HALF_OPEN, probeToken := probeSequence);
      states := states[spec.id := s.(probeUntil := now + lease + 5.0)];
      return true, probeSequence;
    }

    /** Reserve one request: on the governor's own count, or in the shared ledger. */
    method ReserveProbe(spec: Spec, app: App, lease: Time, now: Time, midnight: Time, up: bool) returns (ok: bool, held: Reservation)
      requires now < midnight
      modifies this, Shared()
      ensures var s := old(Current(spec.id, now));
              var token := ClaimedToken(s, old(probeSequence));
              var claimed := ClaimProbe(s, old(probeSequence), lease, now);
              if ledger == null then
                && ok == AvailableLocal(s, spec, now, true)
                && states == old(states)[spec.id := if ok then Charge(claimed, spec, now, midnight) else s]
                && held == if ok then Reservation(token, states[spec.id].resetAt, None) else NOTHING_HELD
              else
                var free := AvailableLocal(s, spec, now, false);
                var call := ReserveCall(spec, app, midnight);
                var reply := Apply(old(ledger.Get(poolOf(spec.id))), now, call);
                && ok == (free && up && reply.granted)
                && ledger.pools == Told(old(ledger.pools), poolOf(spec.id), call, now, free && up)
                && states == old(states)[spec.id := if !free then s else if ok then claimed.(used := claimed.used + 1) else ReleaseSlot(claimed, token)]
                && held == if ok then Reservation(token, claimed.resetAt, reply.stamp) else NOTHING_HELD
    {
      var token;
      ok, token := BeginReserve(spec, lease, now, ledger == null);
      if !ok {
        return false, NOTHING_HELD;
      }
      var s := states[spec.id];
      if ledger != null {
        var granted, window := false, None;
        if up {
          granted, window := ledger.TakeRequest(poolOf(spec.id), app, LedgerLimit(spec), spec.window, now, midnight);
        }
        if !granted {
          states := states[spec.id := ReleaseSlot(s, token)];
          return false, NOTHING_HELD;
        }
        states := states[spec.id := s.(used := s.used + 1)];
        return true, Reservation(token, s.resetAt, window);
      }
      s := s.(used := s.used + 1);
      if s.resetAt.None? && spec.limit.Some? && spec.window.Some? {
        s := s.(resetAt := Some(NextWindowReset(spec.window.value, now, midnight)));
      }
      states := states[spec.id := s];
      held := Reservation(token, s.resetAt, None);
    }

    /** Give back the slot and, if the request was never sent, the request: in the ledger and on the own count. */
    method Release(id: ProviderId, app: App, held: Reservation, refund: bool, now: Time, up: bool)
      modifies this`states, Shared()
      ensures var s := ReleaseSlot(old(Current(id, now)), held.probeToken);
              states == old(states)[id := if refund then Refund(s, held) else s]
      ensures ledger != null ==>
                ledger.pools == Told(old(ledger.pools), poolOf(id), Call.Release(app, held.poolWindow), now, refund && up)
    {
      hide Apply, Recover, RecoverState;
      var s := Load(id, now);
      if held.probeToken != 0 && s.circuit == HALF_OPEN && s.probeToken == held.probeToken {
        s := s.(circuit := OPEN, probeUntil := 0.0, probeToken := 0);
      }
      if refund {
        if ledger != null && up {
          var refunded := ledger.GiveBack(poolOf(id), app, now, held.poolWindow);
        }
        if s.resetAt == held.localWindow {
          s := s.(used := Less(s.used));
        }
      }
      states := states[id := s];
    }

    method Failure(id: ProviderId, token: nat, now: Time)
      modifies this`states
      ensures states == old(states)[id := Failed(old(Current(id, now)), token, now, cfg)]
    {
      var s := Load(id, now);
      if s.circuit == HALF_OPEN && s.probeToken != token {
        return;
      }
      var recent := Recent(s.failures, now - cfg.circuitWindow);
      s := s.(failures := recent + [now]);
      if s.circuit == HALF_OPEN || |s.failures| >= cfg.circuitFailures {
        s := OpenCircuit(s, now, cfg);
      }
      states := states[id := s];
    }

    method Success(id: ProviderId, token: nat, now: Time)
      modifies this`states
      ensures states == old(states)[id := Succeeded(old(Current(id, now)), token)]
    {
      var s := Load(id, now);
      if s.circuit == HALF_OPEN && s.probeToken != token {
        return;
      }
      s := s.(failures := [], circuit := CLOSED);
      states := states[id := s.(probeUntil := 0.0, probeToken := 0, blockedUntil := 0.0)];
    }

    method Exhaust(spec: Spec, reset: Option<Time>, now: Time, midnight: Time, up: bool)
      requires now < midnight
      modifies this`states, Shared()
      ensures var at := ExhaustionReset(spec, reset, now, midnight);
              && states == old(states)[spec.id := Exhausted(old(Current(spec.id, now)), at, now, cfg)]
              && (ledger != null ==> ledger.pools == Told(old(ledger.pools), poolOf(spec.id), Call.Exhaust(Some(at)), now, up))
    {
      var at := ExhaustionReset(spec, reset, now, midnight);
      var s := Load(spec.id, now);
      s := s.(exhausted := true, resetAt := Some(at));
      if s.circuit == HALF_OPEN {
        s := OpenCircuit(s, now, cfg);
      }
      states := states[spec.id := s];
      if ledger != null && up {
        ledger.MarkExhausted(poolOf(spec.id), Some(at), now);
      }
    }

    /** What `observe` does to the governor's own state. */
    method TakeIn(spec: Spec, o: Observation, now: Time, midnight: Time)
      requires now < midnight && Informative(o)
      modifies this`states
      ensures states == old(states)[spec.id := Observed(old(Current(spec.id, now)), spec, o, now, midnight)]
    {
      var remaining := o.remaining.value;
      var s := Load(spec.id, now);
      var wasExhausted := s.exhausted;
      if spec.limit.Some? {
        s := s.(used := CountedUsed(s, spec, remaining));
      }
      if remaining == 0 {
        s := s.(exhausted := true);
        if s.resetAt.None? {
          s := s.(resetAt := Some(DefaultReset(spec, now, midnight)));
        }
      }
      if o.reset.Some? && now < o.reset.value <= now + DAY {
        if !wasExhausted || s.resetAt.None? {
          s := s.(resetAt := o.reset);
        } else if remaining == 0 {
          s := s.(resetAt := Some(Later(s.resetAt.value, o.reset.value)));
        }
      }
      states := states[spec.id := s];
    }

    method Observe(spec: Spec, o: Observation, now: Time, midnight: Time, up: bool)
      requires now < midnight
      modifies this`states, Shared()
      ensures var after := Observed(old(Current(spec.id, now)), spec, o, now, midnight);
              && states == (if Informative(o) then old(states)[spec.id := after] else old(states))
              && (ledger != null ==>
                    ledger.pools == Told(old(ledger.pools), poolOf(spec.id), ReportCall(o, after), now, Informative(o) && up))
    {
      hide Apply, Recover, RecoverState, Observed;
      if o.remaining.None? || o.limit.None? || o.remaining.value > o.limit.value {
        return;
      }
      TakeIn(spec, o, now, midnight);
      if ledger != null && up {
        var s := states[spec.id];
        ledger.Report(poolOf(spec.id), o.limit, o.remaining, if o.remaining.value == 0 then s.resetAt else o.reset, now);
      }
    }

    /** What `observe_async` does: the reset first, then the mark. */
    method TakeInAsync(spec: Spec, o: Observation, now: Time, midnight: Time)
      requires now < midnight && Informative(o)
      modifies this`states
      ensures states == old(states)[spec.id := ObservedAsync(old(Current(spec.id, now)), spec, o, now, midnight)]
    {
      var remaining := o.remaining.value;
      var s := Load(spec.id, now);
      var wasExhausted := s.exhausted;
      if spec.limit.Some? {
        s := s.(used := CountedUsed(s, spec, remaining));
      }
      if o.reset.Some? && now < o.reset.value <= now + DAY {
        if !wasExhausted || s.resetAt.None? {
          s := s.(resetAt := o.reset);
        } else if remaining == 0 {
          s := s.(resetAt := Some(Later(s.resetAt.value, o.reset.value)));
        }
      }
      if remaining == 0 {
        s := s.(exhausted := true);
        if s.resetAt.None? {
          s := s.(resetAt := Some(DefaultReset(spec, now, midnight)));
        }
      }
      states := states[spec.id := s];
    }

    method ObserveAsync(spec: Spec, o: Observation, now: Time, midnight: Time, up: bool)
      requires now < midnight
      modifies this`states, Shared()
      ensures var after := ObservedAsync(old(Current(spec.id, now)), spec, o, now, midnight);
              && states == (if Informative(o) then old(states)[spec.id := after] else old(states))
              && (ledger != null ==>
                    ledger.pools == Told(old(ledger.pools), poolOf(spec.id), ReportCall(o, after), now, Informative(o) && up))
    {
      hide Apply, Recover, RecoverState, ObservedAsync;
      if o.remaining.None? || o.limit.None? || o.remaining.value > o.limit.value {
        return;
      }
      TakeInAsync(spec, o, now, midnight);
      if ledger != null && up {
        var s := states[spec.id];
        ledger.Report(poolOf(spec.id), o.limit, o.remaining, if o.remaining.value == 0 then s.resetAt else o.reset, now);
      }
    }

    method UnblockSecurity(id: ProviderId, now: Time)
      modifies this`states
      ensures states == old(states)[id := Unblocked(old(Current(id, now)))]
    {
      var s := Load(id, now);
      s := s.(securityBlocked := false, failures := []);
      states := states[id := s.(circuit := CLOSED, blockedUntil := 0.0, throttledUntil := 0.0)];
    }
  }
}

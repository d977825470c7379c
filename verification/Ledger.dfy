/**
 The shared quota ledger (fair/embedded/quota.py): one pool row and its per-application
 usage, every operation one atomic transaction.

 `Apply` specifies the transactions on a pool; `SharedQuotaLedger` performs them on the
 table.  A `World` adds a clock, the reservations handed out and the number of rollovers,
 and the lemmas below speak about every interleaving of calls.
 */
module Ledger {
  import opened Options

  type Time = real
  type App = string
  type PoolId = string

  datatype Window = Hourly | DailyUtc | DailyPacific

  /** `usage` holds one row per application that reserved in this window. */
  datatype Pool = Pool(used: nat, exhausted: bool, resetAt: Option<Time>, usage: map<App, nat>)

  const DAY: real := 86400.0
  const FRESH := Pool(0, false, None, map[])

  /** A whole number of days after the epoch. */
  predicate IsMidnight(t: Time) { (t / DAY).Floor as real * DAY == t }

  /** When a window clears.  Pacific midnights are the caller's, calendars being no part of this model. */
  function NextWindowReset(window: Window, now: Time, pacificMidnight: Time): (reset: Time)
    requires now < pacificMidnight
    ensures now < reset
    ensures window == Hourly ==> reset == now + 3600.0
    ensures window == DailyUtc ==> reset - DAY <= now && IsMidnight(reset)
  {
    match window
    case Hourly => now + 3600.0
    case DailyUtc => ((now / DAY).Floor + 1) as real * DAY
    case DailyPacific => pacificMidnight
  }

  function Max(a: int, b: int): (m: int)
    ensures m >= a && m >= b && (m == a || m == b)
  { if a >= b then a else b }

  /** One less, floored at zero. */
  function Less(n: nat): nat {
    if n == 0 then 0 else n - 1
  }

  function Later(a: Time, b: Time): (m: Time)
    ensures m >= a && m >= b && (m == a || m == b)
  { if a >= b then a else b }

  // ---------- one transaction on one pool ----------

  datatype Call =
    | Reserve(app: App, limit: Option<int>, window: Option<Window>, pacificMidnight: Time)
    | Release(app: App, stamp: Option<Time>)
    | Observe(limit: Option<int>, remaining: Option<int>, reset: Option<Time>)
    | Exhaust(reset: Option<Time>)   // None also for a reset that is not finite
    | Look                           // remaining, available, report
    | Unavailable                    // the transaction failed and was rolled back

  datatype Reply = Reply(pool: Pool, granted: bool, stamp: Option<Time>)

  predicate CallOk(c: Call, now: Time) {
    c.Reserve? ==> now < c.pacificMidnight
  }

  function Recover(p: Pool, now: Time): Pool {
    if p.resetAt.Some? && now >= p.resetAt.value then FRESH else p
  }

  function UsedBy(p: Pool, app: App): nat {
    if app in p.usage then p.usage[app] else 0
  }

  /** A report the ledger acts on at all. */
  predicate Usable(c: Call, now: Time) {
    match c
    case Observe(limit, remaining, _) => limit.Some? && remaining.Some? && remaining.value <= limit.value
    case Exhaust(reset) => reset.Some? && reset.value > now
    case Unavailable => false
    case _ => true
  }

  function ObservedReset(r: Pool, remaining: int, reset: Option<Time>, now: Time): Option<Time> {
    if reset.Some? && now < reset.value <= now + DAY then
      if !r.exhausted then reset
      else if remaining == 0 && r.resetAt.Some? then Some(Later(r.resetAt.value, reset.value))
      else r.resetAt
    else r.resetAt
  }

  function Apply(p: Pool, now: Time, c: Call): Reply
    requires CallOk(c, now)
  {
    if !Usable(c, now) then Reply(p, false, None) else
    var r := Recover(p, now);
    match c
    case Reserve(app, limit, window, midnight) =>
      if r.exhausted || (limit.Some? && r.used >= limit.value) then Reply(r, false, None)
      else
        var reset := if r.resetAt.None? && limit.Some? && window.Some?
                     then Some(NextWindowReset(window.value, now, midnight)) else r.resetAt;
        Reply(r.(used := r.used + 1, resetAt := reset, usage := r.usage[app := UsedBy(r, app) + 1]), true, reset)
    case Release(app, stamp) =>
      if r.resetAt != stamp then Reply(r, false, None)
      else
        var usage := if app in r.usage then r.usage[app := Less(r.usage[app])] else r.usage;
        Reply(r.(used := Less(r.used), usage := usage), true, None)
    case Observe(limit, remaining, reset) =>
      var after := ObservedReset(r, remaining.value, reset, now);
      Reply(r.(used := Max(r.used, limit.value - remaining.value), resetAt := after,
               exhausted := r.exhausted || (remaining.value == 0 && after.Some?)), false, None)
    case Exhaust(reset) =>
      var after := if r.exhausted && r.resetAt.Some? then Later(reset.value, r.resetAt.value) else reset.value;
      Reply(r.(exhausted := true, resetAt := Some(after)), false, None)
    case Look => Reply(r, false, None)
    case Unavailable => Reply(p, false, None)
  }

  // ---------- the table ----------

  class SharedQuotaLedger {
    var pools: map<PoolId, Pool>

    constructor ()
      ensures pools == map[]
    {
      pools := map[];
    }

    function Get(id: PoolId): Pool
      reads this
    {
      if id in pools then pools[id] else FRESH
    }

    /** Insert a missing row, clear one whose window is over, and read it. */
    method RecoverRow(id: PoolId, now: Time) returns (row: Pool)
      modifies this
      ensures row == Recover(old(Get(id)), now)
      ensures pools == old(pools)[id := row]
    {
      if id !in pools {
        pools := pools[id := FRESH];
        return FRESH;
      }
      row := pools[id];
      if row.resetAt.Some? && now >= row.resetAt.value {
        row := row.(used := 0, exhausted := false, resetAt := None);
        row := row.(usage := map[]);
        pools := pools[id := row];
      }
    }

    method Remaining(id: PoolId, limit: Option<int>, now: Time) returns (left: Option<int>)
      modifies this
      ensures limit.None? ==> left == None && pools == old(pools)
      ensures limit.Some? ==> pools == old(pools)[id := Apply(old(Get(id)), now, Look).pool]
                              && left == Some(Max(0, limit.value - Get(id).used))
    {
      if limit.None? {
        return None;
      }
      var row := RecoverRow(id, now);
      left := Some(Max(0, limit.value - row.used));
    }

    method Available(id: PoolId, limit: Option<int>, now: Time) returns (ok: bool)
      modifies this
      ensures pools == old(pools)[id := Apply(old(Get(id)), now, Look).pool]
      ensures ok == (!Get(id).exhausted && (limit.None? || Get(id).used < limit.value))
    {
      var row := RecoverRow(id, now);
      ok := !row.exhausted && (limit.None? || row.used < limit.value);
    }

    method TakeRequest(id: PoolId, app: App, limit: Option<int>, window: Option<Window>, now: Time, midnight: Time)
      returns (granted: bool, stamp: Option<Time>)
      requires now < midnight
      modifies this
      ensures var reply := Apply(old(Get(id)), now, Reserve(app, limit, window, midnight));
              pools == old(pools)[id := reply.pool] && granted == reply.granted && stamp == reply.stamp
    {
      var row := RecoverRow(id, now);
      if row.exhausted || (limit.Some? && row.used >= limit.value) {
        return false, None;
      }
      var reset := row.resetAt;
      if reset.None? && limit.Some? && window.Some? {
        reset := Some(NextWindowReset(window.value, now, midnight));
      }
      pools := pools[id := row.(used := row.used + 1, resetAt := reset)];
      var mine := UsedBy(row, app);
      pools := pools[id := pools[id].(usage := row.usage[app := mine + 1])];
      return true, reset;
    }

    method GiveBack(id: PoolId, app: App, now: Time, stamp: Option<Time>) returns (refunded: bool)
      modifies this
      ensures var reply := Apply(old(Get(id)), now, Release(app, stamp));
              pools == old(pools)[id := reply.pool] && refunded == reply.granted
    {
      var row := RecoverRow(id, now);
      if row.resetAt != stamp {
        return false;
      }
      pools := pools[id := row.(used := Less(row.used))];
      if app in row.usage {
        pools := pools[id := pools[id].(usage := row.usage[app := Less(row.usage[app])])];
      }
      return true;
    }

    method Report(id: PoolId, limit: Option<int>, remaining: Option<int>, resetAt: Option<Time>, now: Time)
      modifies this
      ensures var c := Observe(limit, remaining, resetAt);
              pools == if Usable(c, now) then old(pools)[id := Apply(old(Get(id)), now, c).pool] else old(pools)
    {
      if remaining.None? || limit.None? || remaining.value > limit.value {
        return;
      }
      var row := RecoverRow(id, now);
      var used := Max(row.used, limit.value - remaining.value);
      var current := row.resetAt;
      if resetAt.Some? && now < resetAt.value <= now + DAY {
        if !row.exhausted {
          current := resetAt;
        } else if remaining.value == 0 && current.Some? {
          current := Some(Later(current.value, resetAt.value));
        }
      }
      var spent := row.exhausted || (remaining.value == 0 && current.Some?);
      pools := pools[id := row.(used := used, exhausted := spent, resetAt := current)];
    }

    method MarkExhausted(id: PoolId, resetAt: Option<Time>, now: Time)
      modifies this
      ensures var c := Exhaust(resetAt);
              pools == if Usable(c, now) then old(pools)[id := Apply(old(Get(id)), now, c).pool] else old(pools)
    {
      if resetAt.None? || resetAt.value <= now {
        return;
      }
      var row := RecoverRow(id, now);
      var reset := resetAt.value;
      if row.exhausted && row.resetAt.Some? {
        reset := Later(reset, row.resetAt.value);
      }
      pools := pools[id := row.(exhausted := true, resetAt := Some(reset))];
    }
  }

  // ---------- exhaustion ----------

  /** A call with the moment it runs. */
  datatype Timed = Timed(at: Time, call: Call)

  ghost predicate CallsOk(es: seq<Timed>) {
    forall e <- es :: CallOk(e.call, e.at)
  }

  ghost function Run(p: Pool, es: seq<Timed>): Pool
    requires CallsOk(es)
    decreases |es|
  {
    if es == [] then p else Run(Apply(p, es[0].at, es[0].call).pool, es[1..])
  }

  /** Exhaustion is never recorded without the moment it ends. */
  ghost predicate Recoverable(p: Pool) {
    p.exhausted ==> p.resetAt.Some?
  }

  lemma {:induction false} AlwaysRecoverable(p: Pool, es: seq<Timed>)
    requires CallsOk(es) && Recoverable(p)
    ensures Recoverable(Run(p, es))
    decreases |es|
  {
    if es != [] {
      AlwaysRecoverable(Apply(p, es[0].at, es[0].call).pool, es[1..]);
    }
  }

  /** While every call comes before the reset: still exhausted, nothing granted, the reset only later. */
  lemma {:induction false} ExhaustionSticks(p: Pool, es: seq<Timed>, k: nat)
    requires CallsOk(es) && p.exhausted && p.resetAt.Some?
    requires forall e <- es :: e.at < p.resetAt.value
    ensures Run(p, es).exhausted && Run(p, es).resetAt.Some? && Run(p, es).resetAt.value >= p.resetAt.value
    ensures k < |es| && es[k].call.Reserve? ==> !Apply(Run(p, es[..k]), es[k].at, es[k].call).granted
    decreases |es|
  {
    if es != [] {
      var q := Apply(p, es[0].at, es[0].call).pool;
      ExhaustionSticks(q, es[1..], if k > 0 then k - 1 else |es|);
      if 0 < k < |es| {
        assert es[1..][..k - 1] == es[..k][1..];
      }
    }
  }

  /** The first successful operation at or after the reset starts from zero usage. */
  lemma {:induction false} RecoveredAtReset(p: Pool, now: Time, c: Call)
    requires CallOk(c, now) && Usable(c, now) && p.resetAt.Some? && now >= p.resetAt.value
    ensures Apply(p, now, c) == Apply(FRESH, now, c)
    ensures c.Reserve? && (c.limit.Some? ==> c.limit.value > 0) ==>
              Apply(p, now, c).granted && Apply(p, now, c).pool.used == 1
    ensures c == Look ==> Apply(p, now, c).pool.used == 0 && !Apply(p, now, c).pool.exhausted
  {
  }

  // ---------- what a report does to the requests that follow ----------

  /** A reset a report may set: ahead, and within a day. */
  predicate News(reset: Option<Time>, now: Time) { reset.Some? && now < reset.value <= now + DAY }

  /** A reservation made while the pool's reset is not due. */
  predicate Grants(p: Pool, limit: Option<int>) { !p.exhausted && (limit.Some? ==> p.used < limit.value) }

  lemma {:induction false} GrantedExactly(p: Pool, now: Time, app: App, limit: Option<int>, window: Option<Window>, midnight: Time)
    requires now < midnight
    ensures Apply(p, now, Reserve(app, limit, window, midnight)).granted <==> Grants(Recover(p, now), limit)
  {
  }

  /**
   What a report of `remaining` out of `limit` leaves a reservation made before the next reset:
   it is granted exactly if the pool was not spent and the report does not spend it, and both
   the count so far and the count the report implies are below the reservation's own limit.
   */
  lemma {:induction false} ReportDecides(p: Pool, at: Time, limit: int, remaining: int, reset: Option<Time>, now: Time, app: App,
                                         own: Option<int>, window: Option<Window>, midnight: Time)
    requires remaining <= limit && now < midnight
    requires var q := Apply(p, at, Observe(Some(limit), Some(remaining), reset)).pool; q.resetAt.Some? ==> now < q.resetAt.value
    ensures var r := Recover(p, at);
            Apply(Apply(p, at, Observe(Some(limit), Some(remaining), reset)).pool, now, Reserve(app, own, window, midnight)).granted <==>
              && !r.exhausted && !(remaining == 0 && (r.resetAt.Some? || News(reset, at)))
              && (own.Some? ==> r.used < own.value && limit - remaining < own.value)
  {
  }

  /**
   Which reset a report leaves: news replaces the reset of a pool that was not spent, a second
   report of nothing left moves a spent pool's reset only later, anything else leaves it.
   */
  lemma {:induction false} ReportedReset(p: Pool, at: Time, limit: int, remaining: int, reset: Option<Time>)
    requires remaining <= limit
    ensures var r := Recover(p, at);
            var q := Apply(p, at, Observe(Some(limit), Some(remaining), reset)).pool;
            && (News(reset, at) && !r.exhausted ==> q.resetAt == reset)
            && (!News(reset, at) || (r.exhausted && remaining != 0) ==> q.resetAt == r.resetAt)
            && (News(reset, at) && r.exhausted && remaining == 0 && r.resetAt.Some? ==>
                  q.resetAt.Some? && q.resetAt.value >= reset.value && q.resetAt.value >= r.resetAt.value
                  && (q.resetAt == reset || q.resetAt == r.resetAt))
            && q.usage == r.usage
  {
  }

  /** No call of the run finds the pool's reset due. */
  ghost predicate OneWindow(p: Pool, es: seq<Timed>)
    requires CallsOk(es)
    decreases |es|
  {
    es == [] || ((p.resetAt.Some? ==> es[0].at < p.resetAt.value) && OneWindow(Apply(p, es[0].at, es[0].call).pool, es[1..]))
  }

  ghost predicate NoRefunds(es: seq<Timed>) { forall e <- es :: !e.call.Release? }

  /** How many reservations of the run are granted under at most `limit`. */
  ghost function GrantedUnder(p: Pool, es: seq<Timed>, limit: int): nat
    requires CallsOk(es)
    decreases |es|
  {
    if es == [] then 0
    else
      var reply := Apply(p, es[0].at, es[0].call);
      var c := es[0].call;
      (if c.Reserve? && reply.granted && c.limit.Some? && c.limit.value <= limit then 1 else 0) + GrantedUnder(reply.pool, es[1..], limit)
  }

  lemma {:induction false} GrantsAreLeft(p: Pool, es: seq<Timed>, limit: int)
    requires CallsOk(es) && OneWindow(p, es) && NoRefunds(es)
    ensures GrantedUnder(p, es, limit) <= Max(0, limit - p.used)
    decreases |es|
  {
    if es != [] {
      var reply := Apply(p, es[0].at, es[0].call);
      GrantsAreLeft(reply.pool, es[1..], limit);
      assert !es[0].call.Release?;
    }
  }

  /**
   After a report of `remaining` out of `limit`, and until the pool's reset is due, at most
   `remaining` further reservations are granted under that limit, whatever else is reserved
   and reported.
   */
  lemma {:induction false} ReportBounds(p: Pool, at: Time, limit: int, remaining: int, reset: Option<Time>, es: seq<Timed>)
    requires remaining <= limit && CallsOk(es) && NoRefunds(es)
    requires OneWindow(Apply(p, at, Observe(Some(limit), Some(remaining), reset)).pool, es)
    ensures GrantedUnder(Apply(p, at, Observe(Some(limit), Some(remaining), reset)).pool, es, limit) <= Max(0, remaining)
  {
    var q := Apply(p, at, Observe(Some(limit), Some(remaining), reset)).pool;
    GrantsAreLeft(q, es, limit);
    assert q.used >= limit - remaining;
  }

  /** After a report of nothing left with a reset known, every reservation before that reset is refused, whatever its limit. */
  lemma {:induction false} SpentRefuses(p: Pool, at: Time, limit: int, reset: Option<Time>, es: seq<Timed>, k: nat)
    requires 0 <= limit && CallsOk(es) && k < |es| && es[k].call.Reserve?
    requires Recover(p, at).resetAt.Some? || News(reset, at)
    requires var r := Recover(p, at);
             forall e <- es :: if News(reset, at) && !r.exhausted then e.at < reset.value
                               else if News(reset, at) && r.resetAt.Some? then e.at < reset.value || e.at < r.resetAt.value
                               else r.resetAt.Some? && e.at < r.resetAt.value
    ensures !Apply(Run(Apply(p, at, Observe(Some(limit), Some(0), reset)).pool, es[..k]), es[k].at, es[k].call).granted
  {
    ReportedReset(p, at, limit, 0, reset);
    ExhaustionSticks(Apply(p, at, Observe(Some(limit), Some(0), reset)).pool, es, k);
  }

  /** After an exhaustion is recorded, every reservation before the later of its reset and an established one is refused. */
  lemma {:induction false} ExhaustedRefuses(p: Pool, at: Time, reset: Time, es: seq<Timed>, k: nat)
    requires at < reset && CallsOk(es) && k < |es| && es[k].call.Reserve?
    requires var r := Recover(p, at);
             forall e <- es :: e.at < reset || (r.exhausted && r.resetAt.Some? && e.at < r.resetAt.value)
    ensures !Apply(Run(Apply(p, at, Exhaust(Some(reset))).pool, es[..k]), es[k].at, es[k].call).granted
  {
    ExhaustionSticks(Apply(p, at, Exhaust(Some(reset))).pool, es, k);
  }

  /** A reservation starts a window exactly if the pool had none and both a limit and a kind of window are given. */
  lemma {:induction false} StartsAWindow(p: Pool, now: Time, app: App, limit: Option<int>, window: Option<Window>, midnight: Time)
    requires now < midnight && Grants(Recover(p, now), limit)
    ensures var r := Recover(p, now);
            var q := Apply(p, now, Reserve(app, limit, window, midnight)).pool;
            && (r.resetAt.None? ==> (q.resetAt.Some? <==> limit.Some? && window.Some?))
            && (r.resetAt.Some? ==> q.resetAt == r.resetAt)
            && q.used == r.used + 1 && UsedBy(q, app) == UsedBy(r, app) + 1
            && (forall other | other != app :: UsedBy(q, other) == UsedBy(r, other)) && !q.exhausted
  {
  }
}

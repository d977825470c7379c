/**
 Accounting windows over every interleaving of reservations, refunds and reports on one
 pool (fair/embedded/quota.py): a `World` is the pool, a nondecreasing clock, the number
 of rollovers so far and the reservations handed out.

 Windows are identified only by the reset a pool carried, so the results need that no
 report brings a reset forward; `SafeExactlyWhenNotBroughtForward` says what one that does
 breaks, and `ForwardResetRecurs` shows it.
 */
module Windows {
  import opened Options
  import opened Ledger

  type Id = nat

  /** A granted reservation: who holds it, the stamp it got, and (for the proof) its window's number. */
  datatype Ticket = Ticket(app: App, stamp: Option<Time>, epoch: nat)

  /**
   `settled` are the reservations already given back once, `charged` those granted in the
   current window and not refunded.
   */
  datatype World = World(pool: Pool, now: Time, epoch: nat, tickets: map<Id, Ticket>, settled: set<Id>, charged: set<Id>)

  datatype Event =
    | Take(id: Id, app: App, limit: Option<int>, window: Option<Window>, pacificMidnight: Time)
    | Give(id: Id)
    | Other(call: Call)
    | Adjust(after: Pool)   // a report in the governor's own terms, see LocalWindows.dfy

  const START := World(FRESH, 0.0, 0, map[], {}, {})

  function CallOf(w: World, e: Event): Call
    requires e.Give? ==> e.id in w.tickets
  {
    match e
    case Take(_, app, limit, window, midnight) => Reserve(app, limit, window, midnight)
    case Give(id) => Release(w.tickets[id].app, w.tickets[id].stamp)
    case Other(call) => call
    case Adjust(_) => Look
  }

  /** A report may raise the count and set or move the reset, never drop it or set one that is over. */
  predicate Reported(before: Pool, after: Pool, t: Time) {
    && after.usage == before.usage && after.used >= before.used
    && (before.resetAt.Some? ==> after.resetAt.Some?)
    && (after.resetAt.Some? && after.resetAt != before.resetAt ==> t < after.resetAt.value)
  }

  /** Time does not run backwards, a reservation is given back at most once and by its holder. */
  ghost predicate Allowed(w: World, t: Time, e: Event) {
    && w.now <= t
    && (e.Take? ==> e.id !in w.tickets && t < e.pacificMidnight)
    && (e.Give? ==> e.id in w.tickets && e.id !in w.settled)
    && (e.Other? ==> !e.call.Reserve? && !e.call.Release?)
    && (e.Adjust? ==> Reported(Recover(w.pool, t), e.after, t))
  }

  function PoolAfter(w: World, t: Time, e: Event): Pool
    requires Allowed(w, t, e)
  {
    if e.Adjust? then e.after else Apply(w.pool, t, CallOf(w, e)).pool
  }

  /** The call leaves no running window's reset earlier than it was. */
  ghost predicate KeepsReset(w: World, t: Time, e: Event)
    requires Allowed(w, t, e)
  {
    var r := Recover(w.pool, t);
    var after := PoolAfter(w, t, e);
    Usable(CallOf(w, e), t) && r.resetAt.Some? ==> after.resetAt.Some? && after.resetAt.value >= r.resetAt.value
  }

  predicate RollsOver(w: World, t: Time, c: Call) {
    Usable(c, t) && w.pool.resetAt.Some? && t >= w.pool.resetAt.value
  }

  function Step(w: World, t: Time, e: Event): World
    requires Allowed(w, t, e)
  {
    var c := CallOf(w, e);
    var reply := Apply(w.pool, t, c);
    var rolled := RollsOver(w, t, c);
    var epoch := if rolled then w.epoch + 1 else w.epoch;
    var charged := if rolled then {} else w.charged;
    var next := w.(pool := PoolAfter(w, t, e), now := t, epoch := epoch, charged := charged);
    match e
    case Take(id, app, _, _, _) =>
      if reply.granted then
        next.(tickets := w.tickets[id := Ticket(app, reply.stamp, epoch)], charged := charged + {id})
      else next
    case Give(id) =>
      next.(settled := w.settled + {id}, charged := if reply.granted then charged - {id} else charged)
    case Other(_) => next
    case Adjust(_) => next
  }

  // ---------- stamps identify windows ----------

  ghost predicate StampOk(w: World, k: Ticket) {
    && k.epoch <= w.epoch
    && (k.stamp.Some? ==>
          if k.epoch == w.epoch then w.pool.resetAt.Some? && k.stamp.value <= w.pool.resetAt.value
          else k.stamp.value <= w.now && (w.pool.resetAt.Some? ==> k.stamp.value < w.pool.resetAt.value))
  }

  /** Later windows carry strictly later stamps. */
  ghost predicate Increasing(w: World) {
    forall i, j | i in w.tickets && j in w.tickets && w.tickets[i].epoch < w.tickets[j].epoch
                  && w.tickets[i].stamp.Some? && w.tickets[j].stamp.Some? ::
      w.tickets[i].stamp.value < w.tickets[j].stamp.value
  }

  ghost predicate Booked(w: World) {
    && w.settled <= w.tickets.Keys && w.charged <= w.tickets.Keys
    && (forall id <- w.charged :: w.tickets[id].epoch == w.epoch)
  }

  ghost predicate Stamped(w: World) {
    (forall id <- w.tickets :: StampOk(w, w.tickets[id])) && Increasing(w) && Booked(w)
  }

  /** A ticket's stamp keeps identifying its window across any step. */
  lemma {:induction false} TicketStep(w: World, t: Time, e: Event, id: Id)
    requires Allowed(w, t, e) && KeepsReset(w, t, e) && id in Step(w, t, e).tickets
    requires id in w.tickets ==> StampOk(w, w.tickets[id])
    ensures StampOk(Step(w, t, e), Step(w, t, e).tickets[id])
  {
  }

  lemma {:induction false} IncreasingStep(w: World, t: Time, e: Event)
    requires Stamped(w) && Allowed(w, t, e)
    requires forall id <- Step(w, t, e).tickets :: StampOk(Step(w, t, e), Step(w, t, e).tickets[id])
    ensures Increasing(Step(w, t, e))
  {
    var v := Step(w, t, e);
    forall i, j | i in v.tickets && j in v.tickets && v.tickets[i].epoch < v.tickets[j].epoch
                  && v.tickets[i].stamp.Some? && v.tickets[j].stamp.Some?
      ensures v.tickets[i].stamp.value < v.tickets[j].stamp.value
    {
      if j !in w.tickets {
        assert v.tickets[j].stamp == v.pool.resetAt && StampOk(v, v.tickets[i]);
      }
      if i !in w.tickets {
        assert StampOk(v, v.tickets[j]);
      }
    }
  }

  lemma {:induction false} BookedStep(w: World, t: Time, e: Event)
    requires Booked(w) && Allowed(w, t, e)
    ensures Booked(Step(w, t, e))
  {
  }

  lemma {:induction false} StampedStep(w: World, t: Time, e: Event)
    requires Stamped(w) && Allowed(w, t, e) && KeepsReset(w, t, e)
    ensures Stamped(Step(w, t, e))
  {
    forall id | id in Step(w, t, e).tickets ensures StampOk(Step(w, t, e), Step(w, t, e).tickets[id]) {
      assert id in w.tickets ==> StampOk(w, w.tickets[id]);
      TicketStep(w, t, e, id);
    }
    IncreasingStep(w, t, e);
    BookedStep(w, t, e);
  }

  datatype At = At(time: Time, event: Event)

  /** Every event of the run is allowed, and no report brings a reset forward. */
  ghost predicate RunOk(w: World, es: seq<At>)
    decreases |es|
  {
    es == [] || (Allowed(w, es[0].time, es[0].event) && KeepsReset(w, es[0].time, es[0].event)
                 && RunOk(Step(w, es[0].time, es[0].event), es[1..]))
  }

  ghost function RunAll(w: World, es: seq<At>): World
    requires RunOk(w, es)
    decreases |es|
  {
    if es == [] then w else RunAll(Step(w, es[0].time, es[0].event), es[1..])
  }

  lemma {:induction false} StampedRun(w: World, es: seq<At>)
    requires Stamped(w) && RunOk(w, es)
    ensures Stamped(RunAll(w, es))
    ensures forall id <- w.tickets :: id in RunAll(w, es).tickets && RunAll(w, es).tickets[id] == w.tickets[id]
    decreases |es|
  {
    if es != [] {
      StampedStep(w, es[0].time, es[0].event);
      StampedRun(Step(w, es[0].time, es[0].event), es[1..]);
    }
  }

  /** The refund of `id` goes through and would be taken from the window it was counted in. */
  ghost predicate OwnWindow(w: World, t: Time, id: Id)
    requires Allowed(w, t, Give(id))
  {
    Apply(w.pool, t, CallOf(w, Give(id))).granted ==> Step(w, t, Give(id)).epoch == w.tickets[id].epoch
  }

  /** However the run goes on from `w`, a refund of `id` never touches a later window's count. */
  ghost predicate AlwaysOwnWindow(w: World, id: Id) {
    forall es, t | RunOk(w, es) && Allowed(RunAll(w, es), t, Give(id)) :: OwnWindow(RunAll(w, es), t, id)
  }

  /** A stamped refund that goes through is taken from its own window, whose reset is still the stamp. */
  lemma {:induction false} StampedRefund(w: World, t: Time, id: Id)
    requires Stamped(w) && Allowed(w, t, Give(id)) && w.tickets[id].stamp.Some?
    ensures OwnWindow(w, t, id)
    ensures Apply(w.pool, t, CallOf(w, Give(id))).granted <==>
              t < w.tickets[id].stamp.value && w.pool.resetAt == w.tickets[id].stamp
  {
    assert StampOk(w, w.tickets[id]);
  }

  /** Runs that end the current window and then look at the pool. */
  function EndWindow(w: World): seq<At> {
    match w.pool.resetAt
    case None => [At(w.now, Other(Exhaust(Some(w.now + 1.0)))), At(w.now + 1.0, Other(Look))]
    case Some(reset) => [At(Later(w.now, reset), Other(Look))]
  }

  /** The world `EndWindow` leads to: a new window with nothing counted in it. */
  function NextWindow(w: World): World {
    var now := if w.pool.resetAt.None? then w.now + 1.0 else Later(w.now, w.pool.resetAt.value);
    w.(pool := FRESH, now := now, epoch := w.epoch + 1, charged := {})
  }

  lemma {:induction false} EndWindowWorks(w: World)
    requires Stamped(w)
    ensures RunOk(w, EndWindow(w)) && RunAll(w, EndWindow(w)) == NextWindow(w)
  {
    var es := EndWindow(w);
    var v := Step(w, es[0].time, es[0].event);
    if |es| == 2 {
      assert es[1..] == [es[1]];
      assert RunOk(v, es[1..]);
      assert RunAll(v, es[1..]) == Step(v, es[1].time, es[1].event);
    } else {
      assert es[1..] == [];
      assert RunAll(w, es) == v;
    }
  }

  /**
   The guard that decides safety: a refund of an open reservation stays in its own window
   in every continuation exactly when the reservation carries a stamp.  The source's
   comment says an unstamped refund is refused; its code grants it whenever the pool has
   no reset at that moment.
   */
  lemma {:induction false} SafeExactlyWhenStamped(w: World, id: Id)
    requires Stamped(w) && id in w.tickets && id !in w.settled
    ensures AlwaysOwnWindow(w, id) <==> w.tickets[id].stamp.Some?
  {
    if w.tickets[id].stamp.Some? {
      forall es, t | RunOk(w, es) && Allowed(RunAll(w, es), t, Give(id))
        ensures OwnWindow(RunAll(w, es), t, id)
      {
        StampedRun(w, es);
        StampedRefund(RunAll(w, es), t, id);
      }
    } else {
      EndWindowWorks(w);
      var v := RunAll(w, EndWindow(w));
      assert StampOk(w, w.tickets[id]);
      assert !OwnWindow(v, v.now, id);
    }
  }

  /**
   What an unstamped refund can cost: in the window `EndWindow` leads to, another
   application's request is no longer counted.
   */
  lemma {:induction false} UnstampedRefundUndercounts(w: World, id: Id, other: Id)
    requires Stamped(w) && id in w.tickets && id !in w.settled && w.tickets[id].stamp.None?
    requires other !in w.tickets
    ensures var v := NextWindow(w);
            var take := Take(other, "other", None, None, v.now + 1.0);
            RunOk(w, EndWindow(w)) && RunAll(w, EndWindow(w)) == v && Allowed(v, v.now, take) &&
            var u := Step(v, v.now, take);
            Allowed(u, v.now, Give(id)) &&
            Step(u, v.now, Give(id)).pool.used == 0 && Step(u, v.now, Give(id)).charged == {other}
  {
    EndWindowWorks(w);
    var v := NextWindow(w);
    var u := Step(v, v.now, Take(other, "other", None, None, v.now + 1.0));
    assert u.pool.used == 1 && u.pool.resetAt == None && u.charged == {other};
    assert u.tickets[id] == w.tickets[id];
  }

  /**
   Why resets must not be brought forward: the same UTC midnight stamps two windows, so a
   refund from the first is taken from the second.
   */
  lemma {:induction false} ForwardResetRecurs()
    ensures var take := (i: Id, t: Time) => At(t, Take(i, "app", Some(5), Some(DailyUtc), t + 1.0));
            var es := [take(0, 10.0), At(20.0, Other(Exhaust(Some(100.0)))), take(1, 200.0)];
            var a := Step(START, es[0].time, es[0].event);
            Allowed(a, 20.0, es[1].event) && !KeepsReset(a, 20.0, es[1].event) &&
            var b := Step(a, 20.0, es[1].event);
            Allowed(b, 200.0, es[2].event) &&
            var c := Step(b, 200.0, es[2].event);
            c.tickets[0].stamp == c.tickets[1].stamp == Some(DAY) && c.epoch == 1 && c.tickets[0].epoch == 0 &&
            Allowed(c, 300.0, Give(0)) && !OwnWindow(c, 300.0, 0)
  {
    assert (10.0 / DAY).Floor == 0;
    assert (200.0 / DAY).Floor == 0;
  }

  /** A ticket's own stamp keeps identifying its window along a run, whatever the other tickets carry. */
  lemma {:induction false} TicketRun(w: World, es: seq<At>, id: Id)
    requires id in w.tickets && StampOk(w, w.tickets[id]) && RunOk(w, es)
    ensures id in RunAll(w, es).tickets && RunAll(w, es).tickets[id] == w.tickets[id] && StampOk(RunAll(w, es), w.tickets[id])
    decreases |es|
  {
    if es != [] {
      TicketStep(w, es[0].time, es[0].event, id);
      TicketRun(Step(w, es[0].time, es[0].event), es[1..], id);
    }
  }

  /** A ticket whose stamp identifies its window is only ever refunded from that window. */
  lemma {:induction false} IdentifiedIsSafe(w: World, id: Id)
    requires id in w.tickets && w.tickets[id].stamp.Some? && StampOk(w, w.tickets[id])
    ensures AlwaysOwnWindow(w, id)
  {
    forall es, t | RunOk(w, es) && Allowed(RunAll(w, es), t, Give(id)) ensures OwnWindow(RunAll(w, es), t, id) {
      TicketRun(w, es, id);
    }
  }

  /** With the reset before the stamp, the next window can be given the stamp for its own. */
  lemma {:induction false} StampTakenOver(w: World, id: Id)
    requires id in w.tickets && id !in w.settled && w.tickets[id].stamp.Some? && w.tickets[id].epoch == w.epoch
    requires w.pool.resetAt.Some? && w.now <= w.pool.resetAt.value < w.tickets[id].stamp.value
    ensures !AlwaysOwnWindow(w, id)
  {
    var reset := w.pool.resetAt.value;
    var es := [At(reset, Other(Exhaust(w.tickets[id].stamp)))];
    var v := Step(w, reset, es[0].event);
    assert es[1..] == [] && RunOk(v, []) && RunAll(v, []) == v;
    assert RunOk(w, es) && RunAll(w, es) == v;
    assert v.pool.resetAt == w.tickets[id].stamp && v.epoch == w.epoch + 1;
    assert Allowed(v, reset, Give(id)) && !OwnWindow(v, reset, id);
  }

  /**
   What a reset brought forward breaks, exactly: after a step that leaves its window running,
   an open stamped reservation is still refunded only from its own window, in every
   continuation, if and only if the window's reset is not before the stamp.
   */
  lemma {:induction false} SafeExactlyWhenNotBroughtForward(w: World, t: Time, e: Event, id: Id)
    requires Stamped(w) && Allowed(w, t, e) && id in w.tickets && w.tickets[id].stamp.Some?
    requires id !in Step(w, t, e).settled && w.tickets[id].epoch == Step(w, t, e).epoch
    ensures Step(w, t, e).pool.resetAt.Some?
    ensures AlwaysOwnWindow(Step(w, t, e), id) <==> Step(w, t, e).pool.resetAt.value >= w.tickets[id].stamp.value
  {
    hide AlwaysOwnWindow;
    var v := Step(w, t, e);
    assert StampOk(w, w.tickets[id]);
    StillRunning(w, t, e, id);
    if v.pool.resetAt.value >= w.tickets[id].stamp.value {
      assert StampOk(v, v.tickets[id]);
      IdentifiedIsSafe(v, id);
    } else {
      StampTakenOver(v, id);
    }
  }

  /** A window that goes on has a reset that lies ahead. */
  lemma {:induction false} StillRunning(w: World, t: Time, e: Event, id: Id)
    requires Allowed(w, t, e) && id in w.tickets && StampOk(w, w.tickets[id]) && w.tickets[id].stamp.Some?
    requires w.tickets[id].epoch == Step(w, t, e).epoch
    ensures id in Step(w, t, e).tickets && Step(w, t, e).tickets[id] == w.tickets[id]
    ensures Step(w, t, e).pool.resetAt.Some?
    ensures t <= Step(w, t, e).pool.resetAt.value || Step(w, t, e).pool.resetAt.value >= w.tickets[id].stamp.value
  {
  }

  // ---------- counting ----------

  ghost function Total(m: map<App, nat>): nat
    decreases m.Keys
  {
    if m == map[] then 0 else var a :| a in m; m[a] + Total(m - {a})
  }

  lemma {:induction false} TotalSplit(m: map<App, nat>, a: App)
    requires a in m
    ensures Total(m) == m[a] + Total(m - {a})
    decreases m.Keys
  {
    var b :| b in m && Total(m) == m[b] + Total(m - {b});
    if a != b {
      TotalSplit(m - {b}, a);
      TotalSplit(m - {a}, b);
      assert m - {a} - {b} == m - {b} - {a};
    }
  }

  lemma {:induction false} TotalUpdate(m: map<App, nat>, a: App, n: nat)
    ensures Total(m[a := n]) == Total(m) - (if a in m then m[a] else 0) + n
  {
    TotalSplit(m[a := n], a);
    assert m[a := n] - {a} == m - {a};
    if a in m {
      TotalSplit(m, a);
    } else {
      assert m - {a} == m;
    }
  }

  ghost function Mine(w: World, app: App): set<Id>
    requires w.charged <= w.tickets.Keys
  {
    set id | id in w.charged && w.tickets[id].app == app
  }

  /**
   The counters against the reservations they count, when every reservation is made under
   a limit of at most `limit` with a window.
   */
  ghost predicate Counted(w: World, limit: nat)
    requires Stamped(w)
  {
    && (forall id <- w.tickets :: w.tickets[id].stamp.Some?)
    && (forall id | id in w.tickets && w.tickets[id].epoch == w.epoch && id !in w.settled :: id in w.charged)
    && |w.charged| <= w.pool.used && |w.charged| <= limit
    && (forall app :: UsedBy(w.pool, app) == |Mine(w, app)|)
    && Total(w.pool.usage) == |w.charged|
  }

  ghost predicate Limited(e: Event, limit: nat) {
    e.Take? ==> e.limit.Some? && e.limit.value <= limit && e.window.Some?
  }

  /** The world once the transaction has applied a reset that is due. */
  function Rolled(w: World, t: Time, c: Call): World {
    if RollsOver(w, t, c) then w.(pool := FRESH, now := t, epoch := w.epoch + 1, charged := {}) else w.(now := t)
  }

  lemma {:induction false} RolledStamped(w: World, t: Time, c: Call)
    requires Stamped(w) && w.now <= t
    ensures Stamped(Rolled(w, t, c))
  {
    var r := Rolled(w, t, c);
    forall id | id in r.tickets ensures StampOk(r, r.tickets[id]) {
      assert StampOk(w, w.tickets[id]);
    }
  }

  lemma {:induction false} RolledCounted(w: World, t: Time, c: Call, limit: nat)
    requires Stamped(w) && Counted(w, limit) && Stamped(Rolled(w, t, c))
    ensures Counted(Rolled(w, t, c), limit)
  {
    var r := Rolled(w, t, c);
    forall app ensures UsedBy(r.pool, app) == |Mine(r, app)| {
      if RollsOver(w, t, c) {
        assert Mine(r, app) == {};
      } else {
        assert Mine(r, app) == Mine(w, app);
      }
    }
  }

  /** Applying a due reset first changes nothing about the step. */
  lemma {:induction false} StepRolled(w: World, t: Time, e: Event)
    requires Allowed(w, t, e)
    ensures var r := Rolled(w, t, CallOf(w, e));
            Allowed(r, t, e) && !RollsOver(r, t, CallOf(r, e)) && Step(r, t, e) == Step(w, t, e)
  {
    var c := CallOf(w, e);
    assert Apply(Rolled(w, t, c).pool, t, c) == Apply(w.pool, t, c);
  }

  lemma {:induction false} CountedTake(w: World, t: Time, e: Event, limit: nat)
    requires Stamped(w) && Counted(w, limit) && Allowed(w, t, e) && !RollsOver(w, t, CallOf(w, e))
    requires e.Take? && e.limit.Some? && e.limit.value <= limit && e.window.Some?
    requires Stamped(Step(w, t, e))
    ensures Counted(Step(w, t, e), limit)
  {
    hide Step, Total, UsedBy, Mine, Increasing, StampOk;
    TakeTotals(w, t, e);
    TakeIsCharged(w, t, e);
    TakeKeepsLimit(w, t, e, limit);
    AllMineAfterTake(w, t, e);
  }

  lemma {:induction false} TakeIsCharged(w: World, t: Time, e: Event)
    requires Booked(w) && Allowed(w, t, e) && !RollsOver(w, t, CallOf(w, e)) && e.Take? && e.limit.Some? && e.window.Some?
    requires forall id <- w.tickets :: w.tickets[id].stamp.Some?
    requires forall id | id in w.tickets && w.tickets[id].epoch == w.epoch && id !in w.settled :: id in w.charged
    ensures var v := Step(w, t, e);
            && (forall id <- v.tickets :: v.tickets[id].stamp.Some?)
            && (forall id | id in v.tickets && v.tickets[id].epoch == v.epoch && id !in v.settled :: id in v.charged)
  {
    hide Booked;
  }

  lemma {:induction false} TakeKeepsLimit(w: World, t: Time, e: Event, limit: nat)
    requires Booked(w) && Allowed(w, t, e) && !RollsOver(w, t, CallOf(w, e)) && e.Take? && e.limit.Some? && e.limit.value <= limit
    requires |w.charged| <= w.pool.used && |w.charged| <= limit
    ensures |Step(w, t, e).charged| <= limit && |Step(w, t, e).charged| <= Step(w, t, e).pool.used
  {
    TakeTotals(w, t, e);
  }

  lemma {:induction false} AllMineAfterTake(w: World, t: Time, e: Event)
    requires w.charged <= w.tickets.Keys && Allowed(w, t, e) && !RollsOver(w, t, CallOf(w, e)) && e.Take?
    requires forall app :: UsedBy(w.pool, app) == |Mine(w, app)|
    ensures var v := Step(w, t, e);
            v.charged <= v.tickets.Keys && forall app :: UsedBy(v.pool, app) == |Mine(v, app)|
  {
    hide Step, UsedBy, Mine;
    forall app ensures Step(w, t, e).charged <= Step(w, t, e).tickets.Keys && UsedBy(Step(w, t, e).pool, app) == |Mine(Step(w, t, e), app)| {
      MineAfterTake(w, t, e, app);
    }
    MineAfterTake(w, t, e, "");
  }

  lemma {:induction false} TakeTotals(w: World, t: Time, e: Event)
    requires Booked(w) && Allowed(w, t, e) && !RollsOver(w, t, CallOf(w, e)) && e.Take?
    ensures var v := Step(w, t, e);
            var more := if Apply(w.pool, t, CallOf(w, e)).granted then 1 else 0;
            && Total(v.pool.usage) == Total(w.pool.usage) + more
            && |v.charged| == |w.charged| + more && v.pool.used == w.pool.used + more
  {
    if Apply(w.pool, t, CallOf(w, e)).granted {
      TotalUpdate(w.pool.usage, e.app, UsedBy(w.pool, e.app) + 1);
    }
  }

  lemma {:induction false} MineAfterTake(w: World, t: Time, e: Event, app: App)
    requires w.charged <= w.tickets.Keys && Allowed(w, t, e) && !RollsOver(w, t, CallOf(w, e)) && e.Take?
    requires UsedBy(w.pool, app) == |Mine(w, app)|
    ensures var v := Step(w, t, e);
            v.charged <= v.tickets.Keys && UsedBy(v.pool, app) == |Mine(v, app)|
  {
    var v := Step(w, t, e);
    if Apply(w.pool, t, CallOf(w, e)).granted && app == e.app {
      assert Mine(v, app) == Mine(w, app) + {e.id};
    } else {
      assert Mine(v, app) == Mine(w, app);
    }
  }

  lemma {:induction false} CountedGive(w: World, t: Time, e: Event, limit: nat)
    requires Stamped(w) && Counted(w, limit) && Allowed(w, t, e) && !RollsOver(w, t, CallOf(w, e))
    requires e.Give? && Stamped(Step(w, t, e))
    ensures Counted(Step(w, t, e), limit)
  {
    var v := Step(w, t, e);
    var mine := w.tickets[e.id].app;
    if Apply(w.pool, t, CallOf(w, e)).granted {
      StampedRefund(w, t, e.id);
      assert e.id in Mine(w, mine);
      assert |v.charged| == |w.charged| - 1;
      TotalUpdate(w.pool.usage, mine, Less(UsedBy(w.pool, mine)));
    }
    forall app ensures UsedBy(v.pool, app) == |Mine(v, app)| {
      MineAfterGive(w, t, e, app);
    }
  }

  lemma {:induction false} MineAfterGive(w: World, t: Time, e: Event, app: App)
    requires Stamped(w) && Allowed(w, t, e) && !RollsOver(w, t, CallOf(w, e)) && e.Give?
    requires Apply(w.pool, t, CallOf(w, e)).granted ==> e.id in w.charged
    requires UsedBy(w.pool, app) == |Mine(w, app)|
    ensures var v := Step(w, t, e);
            v.charged <= v.tickets.Keys && UsedBy(v.pool, app) == |Mine(v, app)|
  {
    var v := Step(w, t, e);
    if Apply(w.pool, t, CallOf(w, e)).granted && app == w.tickets[e.id].app {
      assert e.id in Mine(w, app);
      assert Mine(v, app) == Mine(w, app) - {e.id};
    } else {
      assert Mine(v, app) == Mine(w, app);
    }
  }

  lemma {:induction false} CountedOther(w: World, t: Time, e: Event, limit: nat)
    requires Stamped(w) && Counted(w, limit) && Allowed(w, t, e) && !RollsOver(w, t, CallOf(w, e))
    requires (e.Other? || e.Adjust?) && Stamped(Step(w, t, e))
    ensures Counted(Step(w, t, e), limit)
  {
    var v := Step(w, t, e);
    forall app ensures UsedBy(v.pool, app) == |Mine(v, app)| {
      assert Mine(v, app) == Mine(w, app);
    }
  }

  lemma {:induction false} CountedStep(w: World, t: Time, e: Event, limit: nat)
    requires Stamped(w) && Counted(w, limit) && Allowed(w, t, e) && KeepsReset(w, t, e) && Limited(e, limit)
    ensures Stamped(Step(w, t, e)) && Counted(Step(w, t, e), limit)
  {
    StampedStep(w, t, e);
    var r := Rolled(w, t, CallOf(w, e));
    RolledStamped(w, t, CallOf(w, e));
    RolledCounted(w, t, CallOf(w, e), limit);
    StepRolled(w, t, e);
    match e
    case Take(_, _, _, _, _) => CountedTake(r, t, e, limit);
    case Give(_) => CountedGive(r, t, e, limit);
    case _ => CountedOther(r, t, e, limit);
  }

  /**
   Window safety over every interleaving, where no reservation is made under more than
   `limit` (applications may each hold a smaller one): the requests charged to the
   running window never exceed it, the applications' usage adds up to exactly those
   requests and so to at most `used`, and stamps of later windows are strictly later.
   */
  lemma {:induction false} WindowSafety(w: World, es: seq<At>, limit: nat)
    requires Stamped(w) && Counted(w, limit)
    requires RunOk(w, es) && forall e <- es :: Limited(e.event, limit)
    ensures var v := RunAll(w, es);
            && Stamped(v) && Counted(v, limit)
            && |v.charged| <= limit && Total(v.pool.usage) == |v.charged| <= v.pool.used
            && (forall i, j | i in v.tickets && j in v.tickets && v.tickets[i].epoch < v.tickets[j].epoch ::
                  v.tickets[i].stamp.value < v.tickets[j].stamp.value)
    decreases |es|
  {
    if es != [] {
      CountedStep(w, es[0].time, es[0].event, limit);
      WindowSafety(Step(w, es[0].time, es[0].event), es[1..], limit);
    }
  }

  lemma {:induction false} StartIsSafe(limit: nat)
    ensures Stamped(START) && Counted(START, limit)
  {
    forall app ensures UsedBy(START.pool, app) == |Mine(START, app)| {
      assert Mine(START, app) == {};
    }
  }
}

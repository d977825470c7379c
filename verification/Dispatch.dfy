/**
 From reservations to requests: what a provider is sent, over every interleaving of the
 applications that share one pool (fair/embedded/quota.py with the attempt of
 fair/embedded/router.py).

 A request is sent only on a granted reservation, and a reservation is given back only
 when its request was never sent: the endings after a request went out keep the charge, and
 so does a cancellation.
 */
module Dispatch {
  import opened Lists
  import opened Options
  import opened Ledger
  import opened Windows

  /** The pool's world and the reservations whose request went out. */
  datatype Account = Account(world: World, sent: set<Id>)

  datatype Deed = Transaction(event: Event) | Send(id: Id)

  ghost predicate Enabled(a: Account, t: Time, d: Deed) {
    match d
    case Transaction(e) => Allowed(a.world, t, e) && KeepsReset(a.world, t, e) && (e.Give? ==> e.id !in a.sent)
    case Send(id) => id in a.world.tickets && id !in a.world.settled
  }

  function After(a: Account, t: Time, d: Deed): Account
    requires Enabled(a, t, d)
  {
    match d
    case Transaction(e) => a.(world := Step(a.world, t, e))
    case Send(id) => a.(sent := a.sent + {id})
  }

  /** The reservations of a window that were not given back. */
  ghost function Kept(w: World, epoch: nat): set<Id> {
    set id | id in w.tickets && w.tickets[id].epoch == epoch && id !in w.settled
  }

  /** The requests sent on reservations of a window. */
  ghost function SentIn(a: Account, epoch: nat): set<Id>
    requires a.sent <= a.world.tickets.Keys
  {
    set id | id in a.sent && a.world.tickets[id].epoch == epoch
  }

  ghost predicate Sound(a: Account, limit: nat) {
    && Stamped(a.world) && Counted(a.world, limit)
    && a.sent <= a.world.tickets.Keys && a.sent !! a.world.settled
    && forall epoch: nat :: |Kept(a.world, epoch)| <= limit
  }

  /** What is kept of a window that is over only shrinks; of the current one it is charged. */
  lemma {:induction false} KeptStep(w: World, t: Time, e: Event, limit: nat, epoch: nat)
    requires Stamped(w) && Counted(w, limit) && Allowed(w, t, e)
    requires Stamped(Step(w, t, e)) && Counted(Step(w, t, e), limit)
    requires |Kept(w, epoch)| <= limit
    ensures |Kept(Step(w, t, e), epoch)| <= limit
  {
    var v := Step(w, t, e);
    if epoch == v.epoch {
      assert Kept(v, epoch) <= v.charged;
      SubsetSize(Kept(v, epoch), v.charged);
    } else {
      assert Kept(v, epoch) <= Kept(w, epoch);
      SubsetSize(Kept(v, epoch), Kept(w, epoch));
    }
  }

  lemma {:induction false} SoundStep(a: Account, t: Time, d: Deed, limit: nat)
    requires Sound(a, limit) && Enabled(a, t, d) && (d.Transaction? ==> Limited(d.event, limit))
    ensures Sound(After(a, t, d), limit)
  {
    hide Counted, Stamped;
    if d.Transaction? {
      CountedStep(a.world, t, d.event, limit);
      forall epoch: nat ensures |Kept(Step(a.world, t, d.event), epoch)| <= limit {
        KeptStep(a.world, t, d.event, limit, epoch);
      }
    }
  }

  datatype At = At(time: Time, deed: Deed)

  ghost predicate RunOk(a: Account, ds: seq<At>, limit: nat)
    decreases |ds|
  {
    ds == [] || (Enabled(a, ds[0].time, ds[0].deed) && (ds[0].deed.Transaction? ==> Limited(ds[0].deed.event, limit))
                 && RunOk(After(a, ds[0].time, ds[0].deed), ds[1..], limit))
  }

  ghost function RunAll(a: Account, ds: seq<At>, limit: nat): Account
    requires RunOk(a, ds, limit)
    decreases |ds|
  {
    if ds == [] then a else RunAll(After(a, ds[0].time, ds[0].deed), ds[1..], limit)
  }

  /**
   The promise of the ledger: in every run, however many applications share the pool, and
   whenever their requests go out, the requests sent on the reservations of any one window
   never exceed the pool's limit.
   */
  lemma {:induction false} NeverBeyondTheLimit(a: Account, ds: seq<At>, limit: nat)
    requires Sound(a, limit) && RunOk(a, ds, limit)
    ensures var b := RunAll(a, ds, limit);
            Sound(b, limit) && forall epoch: nat :: |SentIn(b, epoch)| <= limit
    decreases |ds|
  {
    if ds != [] {
      SoundStep(a, ds[0].time, ds[0].deed, limit);
      NeverBeyondTheLimit(After(a, ds[0].time, ds[0].deed), ds[1..], limit);
    } else {
      forall epoch: nat ensures |SentIn(a, epoch)| <= limit {
        assert SentIn(a, epoch) <= Kept(a.world, epoch);
        SubsetSize(SentIn(a, epoch), Kept(a.world, epoch));
      }
    }
  }

  lemma {:induction false} NothingSentYet(limit: nat)
    ensures Sound(Account(START, {}), limit)
  {
    StartIsSafe(limit);
    forall epoch: nat ensures |Kept(START, epoch)| <= limit {
      assert Kept(START, epoch) == {};
    }
  }
}

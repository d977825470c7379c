/**
 One `solve` (fair/embedded/router.py): try routes until an answer is accepted or a budget
 is spent, and where required have an independent model check the accepted answer.

 Everything outside the loop is an arbitrary environment: what the selector offers, how an
 attempt goes, when the router is stopped.  The k-th question put to it is question `tick`.
 */
module Routing {
  import opened Options
  import opened Dispositions

  /** A provider and one of its models; an empty group means the model's own. */
  datatype Route = Route(provider: string, model: string, group: string)

  type Key = (string, string)

  function KeyOf(r: Route): Key { (r.provider, r.model) }

  datatype Settings = Settings(maxAttempts: nat, maxUnanswered: nat, maxVerification: nat)

  datatype Request = Request(crossCheck: bool, acceptUnverified: bool)

  /** What an attempt comes to. `Judged` carries the quality gate's verdict on an answer. */
  datatype Reply =
    | NotReserved
    | Cancelled
    | Escaped
    | Judged(acceptable: bool, hardReject: bool, scored: bool, policyUnmet: bool)
    | ValidatorFailed
    | SchemaRejected
    | Errored(disposition: Disposition)

  datatype Role = Primary | CrossCheck

  /** `asked` is the question that made the attempt. */
  datatype Attempt = Attempt(route: Route, role: Role, disposition: Disposition, reply: Reply, asked: nat)

  datatype Env = Env(
    offered: nat -> seq<Route>,
    reply: nat -> Reply,
    stopped: nat -> bool,
    agreement: nat -> Option<Option<bool>>,  // None: comparing raised
    ledgerFailed: bool)

  predicate Happened(r: Reply) {
    !r.NotReserved? && !r.Cancelled? && !r.Escaped?
  }

  function DispositionOf(r: Reply): Disposition
    requires Happened(r)
  {
    match r
    case Judged(acceptable, hard, scored, _) =>
      if acceptable then Accepted else if hard || scored then QualityFailure else Unverified
    case ValidatorFailed => Unverified
    case SchemaRejected => QualityFailure
    case Errored(d) => if d in {InfraFailure, QuotaFailure, CapabilityMismatch} then d else InfraFailure
  }

  /** The verifier's route differs from the primary's in provider, model and independence group. */
  predicate Independent(norm: string -> string, a: Route, b: Route) {
    && norm(a.provider) != norm(b.provider)
    && norm(a.model) != norm(b.model)
    && norm(if a.group == "" then a.model else a.group) != norm(if b.group == "" then b.model else b.group)
  }

  /** What the selector returns: routes of the registry not tried yet. */
  function Candidates(offer: seq<Route>, registry: set<Route>, tried: set<Key>): (c: seq<Route>)
    ensures forall r <- c :: r in offer && r in registry && KeyOf(r) !in tried
  {
    if offer == [] then []
    else (if offer[0] in registry && KeyOf(offer[0]) !in tried then [offer[0]] else [])
         + Candidates(offer[1..], registry, tried)
  }

  function IndependentOnly(c: seq<Route>, norm: string -> string, primary: Route): (d: seq<Route>)
    ensures forall r <- d :: r in c && Independent(norm, primary, r)
  {
    if c == [] then []
    else (if Independent(norm, primary, c[0]) then [c[0]] else []) + IndependentOnly(c[1..], norm, primary)
  }

  /** Every registered route offered before this one had been tried. */
  ghost predicate Preferred(offer: seq<Route>, route: Route, registry: set<Route>, tried: set<Key>) {
    exists i :: 0 <= i < |offer| && offer[i] == route && forall j | 0 <= j < i :: offer[j] in registry ==> KeyOf(offer[j]) in tried
  }

  lemma {:induction false} FirstIsPreferred(offer: seq<Route>, registry: set<Route>, tried: set<Key>)
    requires Candidates(offer, registry, tried) != []
    ensures Preferred(offer, Candidates(offer, registry, tried)[0], registry, tried)
  {
    if offer[0] in registry && KeyOf(offer[0]) !in tried {
      assert offer[0] == Candidates(offer, registry, tried)[0];
    } else {
      FirstIsPreferred(offer[1..], registry, tried);
      var route := Candidates(offer, registry, tried)[0];
      var i :| 0 <= i < |offer| - 1 && offer[1..][i] == route
               && forall j | 0 <= j < i :: offer[1..][j] in registry ==> KeyOf(offer[1..][j]) in tried;
      assert offer[i + 1] == route;
      assert forall j | 0 < j < i + 1 :: offer[j] == offer[1..][j - 1];
    }
  }

  // ---------- what a log says ----------

  /** Each primary attempt was made on the best route offered that had not been tried. */
  ghost predicate BestFirst(log: seq<Attempt>, offered: nat -> seq<Route>, registry: set<Route>, tried: set<Key>) {
    forall a <- log | a.role == Primary :: Preferred(offered(a.asked), a.route, registry, tried)
  }

  lemma {:induction false} BestFirstMore(log: seq<Attempt>, more: seq<Attempt>, offered: nat -> seq<Route>, registry: set<Route>,
                                         tried: set<Key>, after: set<Key>)
    requires BestFirst(log, offered, registry, tried) && tried <= after && log <= more
    requires forall k | |log| <= k < |more| && more[k].role == Primary :: Preferred(offered(more[k].asked), more[k].route, registry, tried)
    ensures BestFirst(more, offered, registry, after)
  {
    hide KeyOf;
    forall a | a in more && a.role == Primary ensures Preferred(offered(a.asked), a.route, registry, after) {
      var k :| 0 <= k < |more| && more[k] == a;
      if k < |log| {
        assert log[k] == a && log[k] in log;
      }
      PreferredMore(offered(a.asked), a.route, registry, tried, after);
    }
  }

  lemma {:induction false} PreferredMore(offer: seq<Route>, route: Route, registry: set<Route>, tried: set<Key>, after: set<Key>)
    requires Preferred(offer, route, registry, tried) && tried <= after
    ensures Preferred(offer, route, registry, after)
  {
    hide KeyOf;
  }

  function Keys(registry: set<Route>): set<Key> {
    set r | r in registry :: KeyOf(r)
  }

  /** Every attempt is on a registered route marked tried, and no route is attempted twice. */
  ghost predicate NoRepeats(log: seq<Attempt>, tried: set<Key>, registry: set<Route>) {
    && (forall a <- log :: a.route in registry && KeyOf(a.route) in tried && Happened(a.reply)
                           && a.disposition == DispositionOf(a.reply))
    && (forall i, j | 0 <= i < j < |log| :: KeyOf(log[i].route) != KeyOf(log[j].route))
    && tried <= Keys(registry)
  }

  /** A judged disposition: it spends an attempt. */
  predicate Answers(d: Disposition) {
    d == Accepted || d == QualityFailure || d == Unverified
  }

  /** The model never answered: it spends the other budget. */
  predicate Unanswers(d: Disposition) {
    d == InfraFailure || d == QuotaFailure
  }

  function CountAnswered(log: seq<Attempt>, role: Role): nat {
    if log == [] then 0
    else CountAnswered(log[..|log| - 1], role)
         + (if log[|log| - 1].role == role && Answers(log[|log| - 1].disposition) then 1 else 0)
  }

  function CountUnanswered(log: seq<Attempt>, role: Role): nat {
    if log == [] then 0
    else CountUnanswered(log[..|log| - 1], role)
         + (if log[|log| - 1].role == role && Unanswers(log[|log| - 1].disposition) then 1 else 0)
  }

  function CountRole(log: seq<Attempt>, role: Role): nat {
    if log == [] then 0
    else CountRole(log[..|log| - 1], role) + (if log[|log| - 1].role == role then 1 else 0)
  }

  lemma {:induction false} Appended(log: seq<Attempt>, a: Attempt, role: Role)
    ensures CountAnswered(log + [a], role) == CountAnswered(log, role) + (if a.role == role && Answers(a.disposition) then 1 else 0)
    ensures CountUnanswered(log + [a], role) == CountUnanswered(log, role) + (if a.role == role && Unanswers(a.disposition) then 1 else 0)
    ensures CountRole(log + [a], role) == CountRole(log, role) + (if a.role == role then 1 else 0)
  {
    assert (log + [a])[..|log|] == log;
  }

  lemma {:induction false} KeyMarked(log: seq<Attempt>, tried: set<Key>, registry: set<Route>, a: Attempt)
    requires NoRepeats(log, tried, registry) && a.route in registry && KeyOf(a.route) !in tried
    requires Happened(a.reply) && a.disposition == DispositionOf(a.reply)
    ensures NoRepeats(log + [a], tried + {KeyOf(a.route)}, registry)
  {
  }

  lemma {:induction false} TriedShrinks(tried: set<Key>, registry: set<Route>, r: Route)
    requires r in registry && KeyOf(r) !in tried
    ensures KeyOf(r) in Keys(registry) && Keys(registry) - (tried + {KeyOf(r)}) < Keys(registry) - tried
  {
    assert KeyOf(r) in Keys(registry) - tried;
  }

  // ---------- how a solve ends ----------

  datatype CheckState = NotRequested | Unavailable | Stopped | ServiceFailed | Disagreement | Passed | Rejected

  datatype Reason =
    | NoEligibleModels | SystemStopped | RouterInternalError | ModelDisagreement | CrossCheckRejected
    | VerifierUnavailable | ValidationServiceFailed | LedgerUnavailable | VerificationUnavailable
    | AllFailedQuality | AllUnavailable

  /** `NoAnswer(true, _)` is FAILED, `NoAnswer(false, _)` ESCALATION_REQUIRED; `Interrupted` re-raises a cancellation. */
  datatype Response =
    | AnswerAccepted(primary: nat, check: CheckState, verifier: nat)
    | AnswerUnverified(primary: nat)
    | NoAnswer(failed: bool, reason: Reason)
    | Interrupted

  function CheckReason(state: CheckState): Reason {
    match state
    case Stopped => SystemStopped
    case Disagreement => ModelDisagreement
    case Unavailable => VerifierUnavailable
    case ServiceFailed => ValidationServiceFailed
    case _ => CrossCheckRejected
  }

  predicate Saw(log: seq<Attempt>, d: Disposition) {
    exists a <- log :: a.disposition == d
  }

  /** The reason told when the search simply ran out. */
  function RanOut(log: seq<Attempt>): (r: Reason)
    ensures r in {NoEligibleModels, VerificationUnavailable, AllFailedQuality, AllUnavailable}
  {
    if log == [] then NoEligibleModels
    else if Saw(log, Unverified) then VerificationUnavailable
    else if Saw(log, QualityFailure) then AllFailedQuality
    else AllUnavailable
  }

  /** Whether the caller takes this unverified answer. */
  predicate Returnable(request: Request, a: Attempt) {
    && request.acceptUnverified && a.disposition == Unverified && a.reply.Judged?
    && !a.reply.hardReject && !a.reply.policyUnmet
  }

  /** No answer in the log could have been handed back. */
  ghost predicate NothingUsable(log: seq<Attempt>, request: Request) {
    forall a <- log :: a.disposition != Accepted && !Returnable(request, a)
  }

  ghost predicate BudgetSpent(log: seq<Attempt>, cfg: Settings) {
    CountAnswered(log, Primary) == cfg.maxAttempts || CountUnanswered(log, Primary) == cfg.maxUnanswered + 1
  }

  /** An accepted answer rests on an accepted primary attempt and, where required, an independent check. */
  ghost predicate AcceptedWell(log: seq<Attempt>, norm: string -> string, k: nat, check: CheckState, verifier: nat, required: bool) {
    && k < |log| && log[k].role == Primary && log[k].reply.Judged? && log[k].reply.acceptable
    && (required ==>
          && check == Passed && k < verifier < |log| && log[verifier].role == CrossCheck
          && log[verifier].reply.Judged? && log[verifier].reply.acceptable
          && Independent(norm, log[k].route, log[verifier].route))
  }

  function Compared(agreement: Option<Option<bool>>, d: Disposition): CheckState {
    if agreement.None? then ServiceFailed
    else if agreement.value == Some(false) then Disagreement
    else if d == Accepted && agreement.value == Some(true) then Passed
    else Rejected
  }

  lemma {:induction false} Marked(log: seq<Attempt>, tried: set<Key>, registry: set<Route>, r: Route)
    requires NoRepeats(log, tried, registry) && r in registry
    ensures NoRepeats(log, tried + {KeyOf(r)}, registry)
  {
  }

  lemma {:induction false} Empty(registry: set<Route>, request: Request)
    ensures NothingUsable([], request) && RanOut([]) == NoEligibleModels
    ensures forall offered: nat -> seq<Route>, tried :: BestFirst([], offered, registry, tried)
    ensures NoRepeats([], {}, registry)
    ensures CountAnswered([], Primary) == CountUnanswered([], Primary) == CountRole([], CrossCheck) == 0
  {
  }

  lemma {:induction false} StillUnusable(log: seq<Attempt>, a: Attempt, request: Request)
    requires NothingUsable(log, request) && a.disposition != Accepted && !Returnable(request, a)
    ensures NothingUsable(log + [a], request)
  {
  }

  lemma {:induction false} Accounted(log: seq<Attempt>, tried: set<Key>, registry: set<Route>, k: nat)
    requires NoRepeats(log, tried, registry) && k < |log|
    ensures Happened(log[k].reply) && log[k].disposition == DispositionOf(log[k].reply)
    ensures log[k].disposition == Accepted ==> log[k].reply.Judged? && log[k].reply.acceptable
    ensures log[k].reply.ValidatorFailed? ==> log[k].disposition == Unverified
  {
    var a := log[k];
    assert a in log;
  }

  /** What one call of `_attempt` leaves behind. */
  datatype Turn = Abandoned | Broke | Lost | Logged | Halted | NoneLeft

  class Solver {
    const cfg: Settings
    const env: Env
    const registry: set<Route>
    const norm: string -> string
    var attempts: seq<Attempt>
    var tried: set<Key>
    var tick: nat

    constructor (cfg: Settings, env: Env, registry: set<Route>, norm: string -> string)
      ensures this.cfg == cfg && this.env == env && this.registry == registry && this.norm == norm
      ensures attempts == [] && tried == {} && tick == 0
    {
      this.cfg, this.env, this.registry, this.norm := cfg, env, registry, norm;
      attempts, tried, tick := [], {}, 0;
    }

    ghost predicate Valid()
      reads this
    {
      NoRepeats(attempts, tried, registry)
    }

    /** One attempt on an untried route: it is marked, and logged when it was really made. */
    method Try(route: Route, role: Role) returns (turn: Turn)
      requires Valid() && route in registry && KeyOf(route) !in tried
      modifies this`attempts, this`tried, this`tick
      ensures Valid() && tick == old(tick) + 1
      ensures turn == (match env.reply(old(tick)) case Cancelled => Abandoned case Escaped => Broke case NotReserved => Lost case _ => Logged)
      ensures turn.Abandoned? || turn.Broke? ==> attempts == old(attempts) && tried == old(tried)
      ensures turn.Lost? || turn.Logged? ==>
                && tried == old(tried) + {KeyOf(route)} && |tried| == |old(tried)| + 1
                && Keys(registry) - tried < Keys(registry) - old(tried)
      ensures turn.Lost? ==> attempts == old(attempts)
      ensures turn.Logged? ==>
                && attempts == old(attempts) + [Attempt(route, role, DispositionOf(env.reply(old(tick))), env.reply(old(tick)), old(tick))]
                && (forall who :: CountAnswered(attempts, who) == CountAnswered(old(attempts), who)
                      + (if role == who && Answers(attempts[|attempts| - 1].disposition) then 1 else 0))
                && (forall who :: CountUnanswered(attempts, who) == CountUnanswered(old(attempts), who)
                      + (if role == who && Unanswers(attempts[|attempts| - 1].disposition) then 1 else 0))
                && (forall who :: CountRole(attempts, who) == CountRole(old(attempts), who) + (if role == who then 1 else 0))
    {
      hide CountAnswered, CountUnanswered, CountRole, NoRepeats;
      var asked, reply := tick, env.reply(tick);
      tick := tick + 1;
      if reply.Cancelled? {
        return Abandoned;
      }
      if reply.Escaped? {
        return Broke;
      }
      TriedShrinks(tried, registry, route);
      if reply.NotReserved? {
        Marked(attempts, tried, registry, route);
        tried := tried + {KeyOf(route)};
        return Lost;
      }
      var attempt := Attempt(route, role, DispositionOf(reply), reply, asked);
      KeyMarked(attempts, tried, registry, attempt);
      forall who {
        Appended(attempts, attempt, who);
      }
      tried := tried + {KeyOf(route)};
      attempts := attempts + [attempt];
      turn := Logged;
    }

    /** The primary counts an attempt log keeps while only cross-checks are added. */
    twostate predicate OnlyChecksAdded(most: nat)
      reads this
    {
      && old(attempts) <= attempts
      && (forall k | |old(attempts)| <= k < |attempts| :: attempts[k].role == CrossCheck)
      && CountAnswered(attempts, Primary) == CountAnswered(old(attempts), Primary)
      && CountUnanswered(attempts, Primary) == CountUnanswered(old(attempts), Primary)
      && CountRole(attempts, CrossCheck) <= CountRole(old(attempts), CrossCheck) + most
    }

    /** A verifier that gave nothing to compare. */
    static predicate Silent(a: Attempt) {
      || a.reply.SchemaRejected?
      || a.disposition == InfraFailure || a.disposition == QuotaFailure || a.disposition == CapabilityMismatch
    }

    /**
     Verify an accepted primary answer.  `Passed` only with an accepted answer of an
     independent route, logged at `verifier`, that agrees; `Unavailable` only when no
     independent route is left or every turn of the verification budget marked one.
     */
    method RunCrossCheck(primary: Route) returns (state: CheckState, cancelled: bool, verifier: nat)
      requires Valid()
      modifies this`attempts, this`tried, this`tick
      ensures Valid() && OnlyChecksAdded(cfg.maxVerification)
      ensures state == Passed ==>
                && !cancelled && |old(attempts)| <= verifier < |attempts|
                && attempts[verifier].disposition == Accepted && Independent(norm, primary, attempts[verifier].route)
                && env.agreement(tick) == Some(Some(true))
      ensures state == Disagreement ==> !cancelled && env.agreement(tick) == Some(Some(false))
      ensures state == Rejected ==>
                && !cancelled && |old(attempts)| <= verifier < |attempts| && env.agreement(tick).Some?
                && env.agreement(tick) != Some(Some(false))
                && (env.agreement(tick) == Some(Some(true)) ==> attempts[verifier].disposition != Accepted)
      ensures state == ServiceFailed ==>
                || (tick > 0 && env.reply(tick - 1).Escaped?) || env.agreement(tick).None?
                || (|old(attempts)| < |attempts| && attempts[|attempts| - 1].reply.ValidatorFailed?)
      ensures cancelled ==> tick > 0 && env.reply(tick - 1).Cancelled?
      ensures forall k | |old(attempts)| <= k < |attempts| - 1 :: Silent(attempts[k])
      ensures old(tried) <= tried
      ensures state == Stopped ==> env.stopped(tick)
      ensures state == Unavailable && !cancelled ==>
                || IndependentOnly(Candidates(env.offered(tick), registry, tried), norm, primary) == []
                || |tried| == |old(tried)| + cfg.maxVerification
      ensures state != NotRequested
    {
      hide CountAnswered, CountUnanswered, CountRole, NoRepeats, Candidates, IndependentOnly, Independent, DispositionOf, Keys;
      state, cancelled, verifier := Unavailable, false, 0;
      for round := 0 to cfg.maxVerification
        invariant Valid() && OnlyChecksAdded(round) && |tried| == |old(tried)| + round && old(tried) <= tried
        invariant state == Unavailable && !cancelled
        invariant forall k | |old(attempts)| <= k < |attempts| :: Silent(attempts[k])
      {
        if env.stopped(tick) {
          state := Stopped;
          break;
        }
        var candidates := IndependentOnly(Candidates(env.offered(tick), registry, tried), norm, primary);
        if candidates == [] {
          break;
        }
        var route := candidates[0];
        assert route in candidates;
        var turn := Try(route, CrossCheck);
        if turn.Abandoned? {
          cancelled := true;
          return;
        }
        if turn.Broke? {
          state := ServiceFailed;
          break;
        }
        if turn.Lost? {
          continue;
        }
        verifier := |attempts| - 1;
        var attempt := attempts[verifier];
        if env.stopped(tick) {
          state := Stopped;
          break;
        }
        if attempt.reply.ValidatorFailed? {
          state := ServiceFailed;
          break;
        }
        if Silent(attempt) {
          continue;
        }
        state := Compared(env.agreement(tick), attempt.disposition);
        break;
      }
    }

    /** A response without an answer says truthfully why. */
    ghost predicate Truthful(failed: bool, reason: Reason, required: bool, request: Request)
      reads this
    {
      && (failed ==> reason in {RouterInternalError, LedgerUnavailable, ValidationServiceFailed})
      && (reason == NoEligibleModels || reason == VerificationUnavailable || reason == AllFailedQuality || reason == AllUnavailable ==>
            && reason == RanOut(attempts) && NothingUsable(attempts, request) && !env.ledgerFailed
            && (BudgetSpent(attempts, cfg) || Candidates(env.offered(tick), registry, tried) == []))
      && (reason == LedgerUnavailable <==> env.ledgerFailed)
      && (reason == SystemStopped ==> env.stopped(tick))
      && (reason == ModelDisagreement ==> required && env.agreement(tick) == Some(Some(false)))
      && (reason in {VerifierUnavailable, CrossCheckRejected} ==> required)
      && (!required && reason !in {SystemStopped, LedgerUnavailable} ==> NothingUsable(attempts, request))
    }

    /** How the search loop may stop, before the closing remarks. */
    ghost predicate Ended(reason: Reason, validatorFailed: bool, internalFailure: bool, required: bool, request: Request)
      reads this
    {
      && (internalFailure <==> reason == RouterInternalError)
      && (validatorFailed ==> reason == NoEligibleModels || reason == ValidationServiceFailed)
      && (!required && reason != SystemStopped ==> NothingUsable(attempts, request))
      && match reason
         case NoEligibleModels =>
           && NothingUsable(attempts, request)
           && (validatorFailed || BudgetSpent(attempts, cfg) || Candidates(env.offered(tick), registry, tried) == [])
         case SystemStopped => env.stopped(tick)
         case ModelDisagreement => required && env.agreement(tick) == Some(Some(false))
         case RouterInternalError => true
         case ValidationServiceFailed => required && validatorFailed
         case _ => required && (reason == VerifierUnavailable || reason == CrossCheckRejected)
    }

    function Closing(reason: Reason, validatorFailed: bool, internalFailure: bool): Response
      reads this
    {
      if env.ledgerFailed then NoAnswer(true, LedgerUnavailable)
      else if validatorFailed && !internalFailure then NoAnswer(true, ValidationServiceFailed)
      else if reason == NoEligibleModels then NoAnswer(internalFailure, RanOut(attempts))
      else NoAnswer(internalFailure, reason)
    }

    lemma {:induction false} Closes(reason: Reason, validatorFailed: bool, internalFailure: bool, required: bool, request: Request)
      requires Ended(reason, validatorFailed, internalFailure, required, request)
      ensures var r := Closing(reason, validatorFailed, internalFailure);
              r.NoAnswer? && Truthful(r.failed, r.reason, required, request)
    {
      hide NothingUsable, BudgetSpent, Candidates, RanOut;
    }

    /** A primary attempt that says nothing about the ones before it. */
    twostate predicate OnePrimaryAdded(request: Request)
      reads this
    {
      attempts != [] && attempts[..|attempts| - 1] == old(attempts) &&
      var a := attempts[|attempts| - 1];
      && a.role == Primary
      && (a.disposition == Accepted ==> a.reply.Judged? && a.reply.acceptable)
      && (a.reply.ValidatorFailed? ==> a.disposition == Unverified)
      && (a.disposition != Accepted && !Returnable(request, a) ==> NothingUsable(attempts, request))
      && CountAnswered(attempts, Primary) == CountAnswered(old(attempts), Primary) + (if Answers(a.disposition) then 1 else 0)
      && CountUnanswered(attempts, Primary) == CountUnanswered(old(attempts), Primary) + (if Unanswers(a.disposition) then 1 else 0)
      && CountRole(attempts, CrossCheck) == CountRole(old(attempts), CrossCheck)
    }

    /** The head of the loop: stop, or attempt the best route that is left. */
    method TryNext(request: Request) returns (turn: Turn)
      requires Valid() && BestFirst(attempts, env.offered, registry, tried) && NothingUsable(attempts, request)
      modifies this`attempts, this`tried, this`tick
      ensures Valid() && BestFirst(attempts, env.offered, registry, tried)
      ensures !turn.Logged? ==> attempts == old(attempts)
      ensures turn.Halted? ==> env.stopped(tick)
      ensures turn.NoneLeft? ==> Candidates(env.offered(tick), registry, tried) == []
      ensures turn.Abandoned? ==> tick > 0 && env.reply(tick - 1).Cancelled?
      ensures turn.Broke? ==> tick > 0 && env.reply(tick - 1).Escaped?
      ensures turn.Lost? || turn.Logged? ==> Keys(registry) - tried < Keys(registry) - old(tried)
      ensures turn.Logged? ==> OnePrimaryAdded(request)
    {
      hide CountAnswered, CountUnanswered, CountRole, NoRepeats, Candidates, DispositionOf, Keys, NothingUsable, KeyOf, BestFirst, Preferred;
      if env.stopped(tick) {
        return Halted;
      }
      var candidates := Candidates(env.offered(tick), registry, tried);
      if candidates == [] {
        return NoneLeft;
      }
      FirstIsPreferred(env.offered(tick), registry, tried);
      assert candidates[0] in candidates;
      turn := Try(candidates[0], Primary);
      if turn.Lost? || turn.Logged? {
        BestFirstMore(old(attempts), attempts, env.offered, registry, old(tried), tried);
      }
      if turn.Logged? {
        var a := attempts[|attempts| - 1];
        Accounted(attempts, tried, registry, |attempts| - 1);
        if a.disposition != Accepted && !Returnable(request, a) {
          StillUnusable(old(attempts), a, request);
        }
      }
    }

    /** Check the accepted attempt `k`. */
    method Confirm(k: nat) returns (state: CheckState, cancelled: bool, verifier: nat)
      requires Valid() && BestFirst(attempts, env.offered, registry, tried)
      requires k < |attempts| && attempts[k].role == Primary && attempts[k].reply.Judged? && attempts[k].reply.acceptable
      modifies this`attempts, this`tried, this`tick
      ensures Valid() && BestFirst(attempts, env.offered, registry, tried) && OnlyChecksAdded(cfg.maxVerification)
      ensures !cancelled && state == Passed ==> AcceptedWell(attempts, norm, k, state, verifier, true)
      ensures cancelled ==> tick > 0 && env.reply(tick - 1).Cancelled?
      ensures state == Stopped ==> env.stopped(tick)
      ensures state == Disagreement ==> env.agreement(tick) == Some(Some(false))
      ensures state != NotRequested
    {
      hide CountAnswered, CountUnanswered, CountRole, NoRepeats, Candidates, DispositionOf, Keys, Independent, BestFirst, KeyOf;
      ghost var checked, known := attempts, tried;
      state, cancelled, verifier := RunCrossCheck(attempts[k].route);
      BestFirstMore(checked, attempts, env.offered, registry, known, tried);
      if !cancelled && state == Passed {
        Accounted(attempts, tried, registry, verifier);
      }
    }

    /**
     The whole run.  It ends because every turn marks a route as tried; no route is tried
     twice; both budgets hold; an answer is called accepted only with an accepted primary
     attempt and, where required, a passed check by an independent route; and a run that
     hands nothing back says why.
     */
    method Solve(request: Request, required: bool) returns (r: Response)
      requires attempts == [] && tried == {}
      modifies this`attempts, this`tried, this`tick
      ensures Valid()
      ensures CountAnswered(attempts, Primary) <= cfg.maxAttempts
      ensures CountUnanswered(attempts, Primary) <= cfg.maxUnanswered + 1
      ensures CountRole(attempts, CrossCheck) <= cfg.maxVerification
      ensures r.AnswerAccepted? ==> AcceptedWell(attempts, norm, r.primary, r.check, r.verifier, required)
      ensures r.AnswerUnverified? ==> r.primary < |attempts| && attempts[r.primary].role == Primary && Returnable(request, attempts[r.primary])
      ensures r.NoAnswer? ==> Truthful(r.failed, r.reason, required, request)
      ensures r.Interrupted? ==> tick > 0 && env.reply(tick - 1).Cancelled?
      ensures r.AnswerAccepted? || r.AnswerUnverified? ==> NothingUsable(attempts[..r.primary], request)
      ensures BestFirst(attempts, env.offered, registry, tried)
    {
      hide CountAnswered, CountUnanswered, CountRole, NoRepeats, Candidates, DispositionOf, Keys;
      hide NothingUsable, Independent, RanOut, Truthful, KeyOf, BestFirst, Preferred, Candidates, Happened;
      Empty(registry, request);
      var answered, unanswered := 0, 0;
      var reason := NoEligibleModels;
      var validatorFailed, internalFailure := false, false;
      while answered < cfg.maxAttempts && unanswered <= cfg.maxUnanswered
        invariant Valid()
        invariant answered == CountAnswered(attempts, Primary) <= cfg.maxAttempts
        invariant unanswered == CountUnanswered(attempts, Primary) <= cfg.maxUnanswered + 1
        invariant CountRole(attempts, CrossCheck) == 0
        invariant !validatorFailed && !internalFailure && reason == NoEligibleModels
        invariant NothingUsable(attempts, request)
        invariant BestFirst(attempts, env.offered, registry, tried)
        decreases Keys(registry) - tried
      {
        ghost var before := attempts;
        var turn := TryNext(request);
        if turn.Halted? {
          reason := SystemStopped;
          break;
        }
        if turn.NoneLeft? {
          break;
        }
        if turn.Abandoned? {
          return Interrupted;
        }
        if turn.Broke? {
          internalFailure := true;
          reason := RouterInternalError;
          break;
        }
        if turn.Lost? {
          continue;
        }
        var k := |attempts| - 1;
        var attempt := attempts[k];
        if Unanswers(attempt.disposition) {
          unanswered := unanswered + 1;
        } else if attempt.disposition != CapabilityMismatch {
          answered := answered + 1;
        }
        validatorFailed := attempt.reply.ValidatorFailed?;
        if validatorFailed {
          break;
        }
        if env.stopped(tick) && !required {
          reason := SystemStopped;
          break;
        }
        if attempt.disposition == Unverified && Returnable(request, attempt) {
          return AnswerUnverified(k);
        }
        if attempt.disposition != Accepted {
          continue;
        }
        if required {
          var state, cancelled, verifier := Confirm(k);
          assert attempts[..k] == before;
          if cancelled {
            return Interrupted;
          }
          validatorFailed := state == ServiceFailed;
          if state != Passed {
            reason := CheckReason(state);
            break;
          }
          return AnswerAccepted(k, state, verifier);
        }
        return AnswerAccepted(k, NotRequested, 0);
      }
      Closes(reason, validatorFailed, internalFailure, required, request);
      r := Closing(reason, validatorFailed, internalFailure);
    }
  }

  // ---------- the words of a verdict ----------

  /** What each reply comes to; only an acceptable answer is accepted. */
  lemma {:induction false} DispositionMeans(r: Reply)
    requires Happened(r)
    ensures var d := DispositionOf(r);
            && (d == Accepted <==> r.Judged? && r.acceptable)
            && (d == QualityFailure <==> r.SchemaRejected? || (r.Judged? && !r.acceptable && (r.hardReject || r.scored)))
            && (d == Unverified <==> r.ValidatorFailed? || (r.Judged? && !r.acceptable && !r.hardReject && !r.scored))
            && (d == QuotaFailure <==> r == Errored(QuotaFailure)) && (d == CapabilityMismatch <==> r == Errored(CapabilityMismatch))
            && (d == InfraFailure <==> r.Errored? && r.disposition != QuotaFailure && r.disposition != CapabilityMismatch)
  {
  }

  /**
   An answer that is not accepted is handed back exactly if the caller takes unverified answers
   and the gate found nothing against it: no hard reject, no score, no policy unmet.
   */
  lemma {:induction false} ReturnableMeans(request: Request, a: Attempt)
    requires Happened(a.reply) && a.disposition == DispositionOf(a.reply)
    ensures Returnable(request, a) <==>
              request.acceptUnverified && a.reply == Judged(false, false, false, false)
  {
  }

  /** Which of the four reasons a search that ran out is told. */
  lemma {:induction false} RanOutMeans(log: seq<Attempt>)
    ensures RanOut(log) == NoEligibleModels <==> log == []
    ensures RanOut(log) == VerificationUnavailable <==> exists k :: 0 <= k < |log| && log[k].disposition == Unverified
    ensures RanOut(log) == AllFailedQuality <==>
              (exists k :: 0 <= k < |log| && log[k].disposition == QualityFailure)
              && forall k | 0 <= k < |log| :: log[k].disposition != Unverified
    ensures RanOut(log) == AllUnavailable <==>
              log != [] && forall k | 0 <= k < |log| :: log[k].disposition != Unverified && log[k].disposition != QualityFailure
  {
    assert forall k | 0 <= k < |log| :: log[k] in log;
  }

  /** A check passes exactly with an accepted answer that agrees; it disagrees, or fails, exactly when comparing does. */
  lemma {:induction false} ComparedMeans(agreement: Option<Option<bool>>, d: Disposition)
    ensures Compared(agreement, d) == Passed <==> agreement == Some(Some(true)) && d == Accepted
    ensures Compared(agreement, d) == Disagreement <==> agreement == Some(Some(false))
    ensures Compared(agreement, d) == ServiceFailed <==> agreement == None
    ensures Compared(agreement, d) == Rejected <==> agreement == Some(None) || (agreement == Some(Some(true)) && d != Accepted)
  {
    assert agreement.Some? && agreement.value.None? ==> agreement == Some(None);
    if agreement.Some? && agreement.value.Some? {
      assert if agreement.value.value then agreement.value == Some(true) else agreement.value == Some(false);
    }
  }

  /** Independence goes both ways, and no name in common survives normalisation; without a group the model stands for it. */
  lemma {:induction false} IndependenceMeans(norm: string -> string, a: Route, b: Route)
    ensures Independent(norm, a, b) <==> Independent(norm, b, a)
    ensures norm(a.provider) == norm(b.provider) || norm(a.model) == norm(b.model) ==> !Independent(norm, a, b)
    ensures a.group != "" && b.group != "" ==>
              (Independent(norm, a, b) <==> norm(a.provider) != norm(b.provider) && norm(a.model) != norm(b.model) && norm(a.group) != norm(b.group))
    ensures a.group == "" && b.group != "" && norm(b.group) == norm(a.model) ==> !Independent(norm, a, b)
    ensures a.group == "" && b.group == "" ==> (Independent(norm, a, b) <==> norm(a.provider) != norm(b.provider) && norm(a.model) != norm(b.model))
  {
  }

  /** A verifier gives nothing to compare exactly if no text of its model came back. */
  lemma {:induction false} SilentMeans(a: Attempt)
    requires Happened(a.reply) && a.disposition == DispositionOf(a.reply)
    ensures Solver.Silent(a) <==> !a.reply.Judged? && !a.reply.ValidatorFailed?
  {
  }

  /** Which budget an attempt spends: a judged answer the one, a failure to answer the other, a mismatch neither. */
  lemma {:induction false} BudgetsMean(r: Reply)
    requires Happened(r)
    ensures Answers(DispositionOf(r)) <==> r.Judged? || r.ValidatorFailed? || r.SchemaRejected?
    ensures Unanswers(DispositionOf(r)) <==> r.Errored? && r.disposition != CapabilityMismatch
  {
  }

  /** What a check that did not pass is reported as; no two states alike. */
  lemma {:induction false} CheckReasonMeans(state: CheckState)
    ensures CheckReason(state) == SystemStopped <==> state == Stopped
    ensures CheckReason(state) == ModelDisagreement <==> state == Disagreement
    ensures CheckReason(state) == VerifierUnavailable <==> state == Unavailable
    ensures CheckReason(state) == ValidationServiceFailed <==> state == ServiceFailed
    ensures CheckReason(state) == CrossCheckRejected <==> state in {NotRequested, Passed, Rejected}
  {
  }
}

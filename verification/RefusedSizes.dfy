/**
 Request sizes a provider refused (fair/providers/live.py): kept for an hour, at most
 eight a model, and any request at least as large in both ways is held back meanwhile.
 */
module RefusedSizes {

  type Time = real

  const TTL: Time := 3600.0
  const SLOTS := 8

  datatype Size = Size(prompt: nat, budget: nat, until: Time)

  predicate AtLeast(prompt: nat, budget: nat, s: Size) { prompt >= s.prompt && budget >= s.budget }

  predicate AtMost(prompt: nat, budget: nat, s: Size) { s.prompt >= prompt && s.budget >= budget }

  // ---------- what is kept ----------

  /** Oldest expiry first. */
  ghost predicate Ordered(sizes: seq<Size>) {
    forall i, j | 0 <= i < j < |sizes| :: sizes[i].until <= sizes[j].until
  }

  /** No size is at least as large as another. */
  ghost predicate Antichain(sizes: seq<Size>) {
    forall i, j | 0 <= i < |sizes| && 0 <= j < |sizes| && i != j :: !AtLeast(sizes[i].prompt, sizes[i].budget, sizes[j])
  }

  predicate LiveAt(s: Size, now: Time) { now < s.until }

  /** The sizes still held at `now`. */
  function Live(sizes: seq<Size>, now: Time): (r: seq<Size>)
    ensures |r| <= |sizes| && forall s :: s in r <==> s in sizes && LiveAt(s, now)
  {
    if sizes == [] then []
    else (if LiveAt(sizes[0], now) then [sizes[0]] else []) + Live(sizes[1..], now)
  }

  /** The sizes a new refusal does not make redundant. */
  function Apart(sizes: seq<Size>, prompt: nat, budget: nat): (r: seq<Size>)
    ensures |r| <= |sizes| && forall s :: s in r <==> s in sizes && !AtMost(prompt, budget, s)
  {
    if sizes == [] then []
    else (if AtMost(prompt, budget, sizes[0]) then [] else [sizes[0]]) + Apart(sizes[1..], prompt, budget)
  }

  lemma {:induction false} LiveKeeps(sizes: seq<Size>, now: Time)
    ensures Ordered(sizes) ==> Ordered(Live(sizes, now))
    ensures Antichain(sizes) ==> Antichain(Live(sizes, now))
  {
    if sizes != [] {
      LiveKeeps(sizes[1..], now);
      TailKeeps(sizes, Live(sizes[1..], now));
    }
  }

  lemma {:induction false} ApartKeeps(sizes: seq<Size>, prompt: nat, budget: nat)
    ensures Ordered(sizes) ==> Ordered(Apart(sizes, prompt, budget))
    ensures Antichain(sizes) ==> Antichain(Apart(sizes, prompt, budget))
  {
    if sizes != [] {
      ApartKeeps(sizes[1..], prompt, budget);
      TailKeeps(sizes, Apart(sizes[1..], prompt, budget));
    }
  }

  /** Fewer of the later sizes, behind the first. */
  lemma {:induction false} TailKeeps(sizes: seq<Size>, rest: seq<Size>)
    requires sizes != [] && forall s <- rest :: s in sizes[1..]
    ensures Ordered(sizes) ==> Ordered(sizes[1..])
    ensures Antichain(sizes) ==> Antichain(sizes[1..])
    ensures Ordered(sizes) && Ordered(rest) ==> Ordered([sizes[0]] + rest)
    ensures Antichain(sizes) && Antichain(rest) ==> Antichain([sizes[0]] + rest)
  {
    var first := sizes[0];
    forall s | s in rest
      ensures Ordered(sizes) ==> first.until <= s.until
      ensures Antichain(sizes) ==> !AtLeast(s.prompt, s.budget, first) && !AtLeast(first.prompt, first.budget, s)
    {
      var k :| 0 <= k < |sizes| - 1 && sizes[1..][k] == s;
      assert sizes[k + 1] == s;
    }
    Prepended(first, rest);
  }

  lemma {:induction false} Prepended(first: Size, rest: seq<Size>)
    ensures (Ordered(rest) && forall s <- rest :: first.until <= s.until) ==> Ordered([first] + rest)
    ensures (Antichain(rest) && forall s <- rest :: !AtLeast(s.prompt, s.budget, first) && !AtLeast(first.prompt, first.budget, s)) ==>
              Antichain([first] + rest)
  {
    hide AtLeast;
    var all := [first] + rest;
    if Ordered(rest) && forall s <- rest :: first.until <= s.until {
      forall i, j | 0 <= i < j < |all| ensures all[i].until <= all[j].until {
        assert all[j] == rest[j - 1] && rest[j - 1] in rest;
      }
    }
    if Antichain(rest) && forall s <- rest :: !AtLeast(s.prompt, s.budget, first) && !AtLeast(first.prompt, first.budget, s) {
      forall i, j | 0 <= i < |all| && 0 <= j < |all| && i != j ensures !AtLeast(all[i].prompt, all[i].budget, all[j]) {
        assert i > 0 ==> all[i] == rest[i - 1] && rest[i - 1] in rest;
        assert j > 0 ==> all[j] == rest[j - 1] && rest[j - 1] in rest;
      }
    }
  }

  /** Whether a request of this size is held back. */
  predicate Covered(sizes: seq<Size>, now: Time, prompt: nat, budget: nat) {
    exists s <- Live(sizes, now) :: AtLeast(prompt, budget, s)
  }

  function LastSlots(sizes: seq<Size>): seq<Size> {
    if |sizes| <= SLOTS then sizes else sizes[|sizes| - SLOTS..]
  }

  /** The memory with a new refusal, before the bound is applied. */
  function Widened(sizes: seq<Size>, now: Time, prompt: nat, budget: nat): seq<Size> {
    Apart(Live(sizes, now), prompt, budget) + [Size(prompt, budget, now + TTL)]
  }

  function Remembered(sizes: seq<Size>, now: Time, prompt: nat, budget: nat): seq<Size> {
    if Covered(sizes, now, prompt, budget) then Live(sizes, now) else LastSlots(Widened(sizes, now, prompt, budget))
  }

  class SizeMemory {
    var sizes: map<string, seq<Size>>

    constructor ()
      ensures forall model :: Of(model) == []
    {
      sizes := map[];
    }

    function Of(model: string): seq<Size>
      reads this
    {
      if model in sizes then sizes[model] else []
    }

    /** Before a request is sent: hold it back if it is at least as large as a live refusal. */
    method RefuseKnownOversize(model: string, now: Time, prompt: nat, budget: nat) returns (held: bool)
      modifies this
      ensures held <==> Covered(old(Of(model)), now, prompt, budget)
      ensures Of(model) == Live(old(Of(model)), now)
      ensures forall other | other != model :: Of(other) == old(Of(other))
    {
      var known := Live(Of(model), now);
      if known == [] {
        sizes := map other | other in sizes && other != model :: sizes[other];
        return false;
      }
      sizes := sizes[model := known];
      held := exists s <- known :: AtLeast(prompt, budget, s);
    }

    /** After a refusal: keep its size unless a live one covers it. */
    method RememberRefusedSize(model: string, now: Time, prompt: nat, budget: nat)
      modifies this
      ensures Of(model) == Remembered(old(Of(model)), now, prompt, budget)
      ensures forall other | other != model :: Of(other) == old(Of(other))
    {
      var live := Live(Of(model), now);
      if exists s <- live :: AtLeast(prompt, budget, s) {
        sizes := sizes[model := live];
        return;
      }
      var kept := Apart(live, prompt, budget);
      kept := kept + [Size(prompt, budget, now + TTL)];
      sizes := sizes[model := LastSlots(kept)];
    }
  }

  // ---------- every run ----------

  datatype Event = Asked(prompt: nat, budget: nat) | Refused(prompt: nat, budget: nat)

  datatype At = At(time: Time, event: Event)

  function Step(sizes: seq<Size>, at: At): seq<Size> {
    match at.event
    case Asked(_, _) => Live(sizes, at.time)
    case Refused(prompt, budget) => Remembered(sizes, at.time, prompt, budget)
  }

  function Run(sizes: seq<Size>, es: seq<At>): seq<Size>
  {
    if es == [] then sizes else Step(Run(sizes, es[..|es| - 1]), es[|es| - 1])
  }

  /** The clock never runs backwards. */
  ghost predicate Forward(es: seq<At>) {
    forall i, j | 0 <= i < j < |es| :: es[i].time <= es[j].time
  }

  /** `s` is a size the provider refused, kept for an hour from then. */
  ghost predicate WasRefused(es: seq<At>, s: Size) {
    exists k :: 0 <= k < |es| && es[k].event == Refused(s.prompt, s.budget) && s.until == es[k].time + TTL
  }

  ghost predicate Sound(sizes: seq<Size>, es: seq<At>) {
    && Ordered(sizes) && Antichain(sizes) && |sizes| <= SLOTS
    && forall s <- sizes :: WasRefused(es, s)
  }

  lemma {:induction false} WidenedSound(sizes: seq<Size>, now: Time, prompt: nat, budget: nat)
    requires Ordered(sizes) && Antichain(sizes) && !Covered(sizes, now, prompt, budget)
    requires forall s <- sizes :: s.until <= now + TTL
    ensures var w := LastSlots(Widened(sizes, now, prompt, budget));
            && Ordered(w) && Antichain(w) && |w| <= SLOTS
            && forall s <- w :: s in sizes || s == Size(prompt, budget, now + TTL)
  {
    var live := Live(sizes, now);
    var kept := Apart(live, prompt, budget);
    LiveKeeps(sizes, now);
    ApartKeeps(live, prompt, budget);
    var latest := Size(prompt, budget, now + TTL);
    forall i | 0 <= i < |kept|
      ensures !AtLeast(prompt, budget, kept[i]) && !AtLeast(kept[i].prompt, kept[i].budget, latest) && kept[i].until <= latest.until
    {
      assert kept[i] in kept && kept[i] in live && kept[i] in sizes;
    }
    var w := kept + [latest];
    assert Ordered(w) && Antichain(w);
    LastSlotsKeep(w);
  }

  lemma {:induction false} LastSlotsKeep(w: seq<Size>)
    requires Ordered(w) && Antichain(w)
    ensures Ordered(LastSlots(w)) && Antichain(LastSlots(w)) && |LastSlots(w)| <= SLOTS
    ensures forall s <- LastSlots(w) :: s in w
  {
  }

  /**
   In every run the sizes kept for a model are at most eight, ordered by expiry, none at
   least as large as another, and each one a size the provider refused, kept for the hour
   after that refusal.
   */
  lemma {:induction false} RunIsSound(es: seq<At>)
    requires Forward(es)
    ensures Sound(Run([], es), es)
  {
    if es != [] {
      var init, at := es[..|es| - 1], es[|es| - 1];
      RunIsSound(init);
      var before := Run([], init);
      forall s | s in before ensures WasRefused(es, s) && s.until <= at.time + TTL {
        var k :| 0 <= k < |init| && init[k].event == Refused(s.prompt, s.budget) && s.until == init[k].time + TTL;
        assert es[k] == init[k];
      }
      LiveKeeps(before, at.time);
      if at.event.Refused? && !Covered(before, at.time, at.event.prompt, at.event.budget) {
        WidenedSound(before, at.time, at.event.prompt, at.event.budget);
        assert WasRefused(es, Size(at.event.prompt, at.event.budget, at.time + TTL));
      }
    }
  }

  /** A request held back is at least as large, both ways, as one refused within the hour before. */
  lemma {:induction false} HeldBackWithReason(es: seq<At>, now: Time, prompt: nat, budget: nat)
    requires Forward(es) && Covered(Run([], es), now, prompt, budget)
    ensures exists k :: 0 <= k < |es| && es[k].event.Refused? && now < es[k].time + TTL
                        && prompt >= es[k].event.prompt && budget >= es[k].event.budget
  {
    RunIsSound(es);
    var sizes := Run([], es);
    var s :| s in Live(sizes, now) && AtLeast(prompt, budget, s);
    assert WasRefused(es, s);
  }

  // ---------- how long a refusal holds ----------

  /** Whether a step drops a live size for want of a slot. */
  predicate Evicts(sizes: seq<Size>, at: At) {
    && at.event.Refused? && !Covered(sizes, at.time, at.event.prompt, at.event.budget)
    && |Widened(sizes, at.time, at.event.prompt, at.event.budget)| > SLOTS
  }

  ghost predicate NeverEvicts(sizes: seq<Size>, es: seq<At>) {
    forall k | 0 <= k < |es| :: !Evicts(Run(sizes, es[..k]), es[k])
  }

  /** Something kept holds back all that `s` holds back, and as long. */
  ghost predicate StandsFor(sizes: seq<Size>, s: Size) {
    exists t <- sizes :: AtLeast(s.prompt, s.budget, t) && t.until >= s.until
  }

  lemma {:induction false} StandsAfter(sizes: seq<Size>, at: At, s: Size)
    requires StandsFor(sizes, s) && at.time < s.until <= at.time + TTL && !Evicts(sizes, at)
    ensures StandsFor(Step(sizes, at), s)
  {
    var t :| t in sizes && AtLeast(s.prompt, s.budget, t) && t.until >= s.until;
    assert t in Live(sizes, at.time);
    match at.event
    case Asked(_, _) =>
    case Refused(prompt, budget) =>
      if !Covered(sizes, at.time, prompt, budget) {
        var w := Widened(sizes, at.time, prompt, budget);
        var latest := Size(prompt, budget, at.time + TTL);
        assert w[|w| - 1] == latest;
        if AtMost(prompt, budget, t) {
          assert latest in w && AtLeast(s.prompt, s.budget, latest);
        } else {
          assert t in w;
        }
      }
  }

  /**
   While no slot is missing, a kept size is held back until its hour is over, whatever
   other sizes are refused meanwhile.
   */
  lemma {:induction false} HeldForTheHour(sizes: seq<Size>, s: Size, es: seq<At>, now: Time)
    requires s in sizes && Forward(es) && NeverEvicts(sizes, es)
    requires forall at <- es :: s.until <= at.time + TTL
    requires forall at <- es :: at.time <= now
    requires now < s.until
    ensures StandsFor(Run(sizes, es), s)
    ensures forall prompt: nat, budget: nat | AtLeast(prompt, budget, s) :: Covered(Run(sizes, es), now, prompt, budget)
  {
    if es != [] {
      var init, at := es[..|es| - 1], es[|es| - 1];
      forall k | 0 <= k < |init| ensures !Evicts(Run(sizes, init[..k]), init[k]) {
        assert init[..k] == es[..k] && init[k] == es[k];
        assert !Evicts(Run(sizes, es[..k]), es[k]);
      }
      HeldForTheHour(sizes, s, init, now);
      assert !Evicts(Run(sizes, es[..|es| - 1]), es[|es| - 1]);
      assert at in es;
      StandsAfter(Run(sizes, init), at, s);
    }
    var t :| t in Run(sizes, es) && AtLeast(s.prompt, s.budget, t) && t.until >= s.until;
    assert t in Live(Run(sizes, es), now);
  }

  /** However the run goes on without evictions, the size is held back until `until`. */
  ghost predicate HeldUntil(sizes: seq<Size>, since: Time, prompt: nat, budget: nat, until: Time) {
    forall es, now | Follows(es, since, now) && now < until && NeverEvicts(sizes, es) :: Covered(Run(sizes, es), now, prompt, budget)
  }

  /** Events in order of time, none before `since` or after `now`. */
  ghost predicate Follows(es: seq<At>, since: Time, now: Time) {
    Forward(es) && since <= now && forall at <- es :: since <= at.time <= now
  }

  /** A kept size holds back everything at least as large for all its time. */
  lemma {:induction false} KeptHolds(sizes: seq<Size>, s: Size, since: Time, prompt: nat, budget: nat)
    requires s in sizes && AtLeast(prompt, budget, s) && s.until <= since + TTL
    ensures HeldUntil(sizes, since, prompt, budget, s.until)
  {
    hide NeverEvicts, Covered, Run, Forward;
    forall es, now | Follows(es, since, now) && now < s.until && NeverEvicts(sizes, es)
      ensures Covered(Run(sizes, es), now, prompt, budget)
    {
      HeldForTheHour(sizes, s, es, now);
    }
  }

  /** When the last of the sizes that cover a request expires. */
  function LastCover(sizes: seq<Size>, prompt: nat, budget: nat, otherwise: Time): (end: Time)
    ensures end >= otherwise && forall s <- sizes :: AtLeast(prompt, budget, s) ==> s.until <= end
    ensures end == otherwise || exists s <- sizes :: AtLeast(prompt, budget, s) && s.until == end
  {
    if sizes == [] then otherwise
    else
      var end := LastCover(sizes[1..], prompt, budget, otherwise);
      if AtLeast(prompt, budget, sizes[0]) && sizes[0].until > end then sizes[0].until else end
  }

  lemma {:induction false} NothingHeldAfter(sizes: seq<Size>, at: Time, prompt: nat, budget: nat, until: Time)
    requires LastCover(sizes, prompt, budget, at) < until
    ensures !HeldUntil(sizes, at, prompt, budget, until)
  {
    hide LastCover;
    var end := LastCover(sizes, prompt, budget, at);
    assert Run(sizes, []) == sizes && NeverEvicts(sizes, []) && Follows([], at, end);
    assert !Covered(Run(sizes, []), end, prompt, budget);
  }

  /** The refusal is kept, or a size that covers it lasts as long as it would. */
  ghost predicate Lasting(sizes: seq<Size>, at: Time, prompt: nat, budget: nat) {
    || !Covered(sizes, at, prompt, budget)
    || exists s <- Live(sizes, at) :: AtLeast(prompt, budget, s) && s.until == at + TTL
  }

  /**
   A refused size is held back for the hour after its refusal, in every continuation that
   evicts nothing, exactly when no live size covered it at that moment or one refused at the
   same moment did.  Otherwise the refusal is not kept and is forgotten with the sizes that
   covered it.
   */
  lemma {:induction false} HeldForItsHourExactly(sizes: seq<Size>, at: Time, prompt: nat, budget: nat)
    requires forall s <- sizes :: s.until <= at + TTL
    ensures HeldUntil(Step(sizes, At(at, Refused(prompt, budget))), at, prompt, budget, at + TTL) <==> Lasting(sizes, at, prompt, budget)
  {
    hide HeldUntil, LastCover;
    var kept := Step(sizes, At(at, Refused(prompt, budget)));
    if !Covered(sizes, at, prompt, budget) {
      var w := Widened(sizes, at, prompt, budget);
      assert w[|w| - 1] == kept[|kept| - 1] == Size(prompt, budget, at + TTL);
      KeptHolds(kept, kept[|kept| - 1], at, prompt, budget);
    } else if exists s <- Live(sizes, at) :: AtLeast(prompt, budget, s) && s.until == at + TTL {
      var s :| s in Live(sizes, at) && AtLeast(prompt, budget, s) && s.until == at + TTL;
      KeptHolds(kept, s, at, prompt, budget);
    } else {
      assert forall s <- kept :: s.until <= at + TTL;
      assert LastCover(kept, prompt, budget, at) < at + TTL;
      NothingHeldAfter(kept, at, prompt, budget, at + TTL);
    }
  }

  /** The same after any run: its sizes all expire within an hour of the next moment. */
  lemma {:induction false} HeldForItsHourInEveryRun(es: seq<At>, at: Time, prompt: nat, budget: nat)
    requires Forward(es + [At(at, Refused(prompt, budget))])
    ensures HeldUntil(Run([], es + [At(at, Refused(prompt, budget))]), at, prompt, budget, at + TTL) <==>
              Lasting(Run([], es), at, prompt, budget)
  {
    hide HeldUntil, Lasting, Step;
    var all := es + [At(at, Refused(prompt, budget))];
    assert all[..|all| - 1] == es && all[|all| - 1] == At(at, Refused(prompt, budget));
    forall i, j | 0 <= i < j < |es| ensures es[i].time <= es[j].time {
      assert all[i] == es[i] && all[j] == es[j];
    }
    RunIsSound(es);
    forall s | s in Run([], es) ensures s.until <= at + TTL {
      var k :| 0 <= k < |es| && es[k].event == Refused(s.prompt, s.budget) && s.until == es[k].time + TTL;
      assert all[k].time <= all[|es|].time;
    }
    HeldForItsHourExactly(Run([], es), at, prompt, budget);
  }

  /** Two refusals, the second covered by the first: it is forgotten with the first. */
  lemma {:induction false} CoveredRefusalsAreForgottenEarly()
    ensures var es := [At(0.0, Refused(10, 10)), At(1000.0, Refused(12, 12))];
            Forward(es) && !HeldUntil(Run([], es), 1000.0, 12, 12, 1000.0 + TTL)
  {
    var a, b := At(0.0, Refused(10, 10)), At(1000.0, Refused(12, 12));
    var first := Size(10, 10, 3600.0);
    assert [a] + [b] == [a, b] && [a][..0] == [];
    assert Run([], [a]) == Step([], a);
    assert Live([], 0.0) == [];
    assert Step([], a) == [first];
    assert first in Live([first], 1000.0);
    assert Covered([first], 1000.0, 12, 12);
    HeldForItsHourInEveryRun([a], 1000.0, 12, 12);
  }
}

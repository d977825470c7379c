/**
 Escalating waits after per-minute refusals (fair/embedded/quota.py, `_throttle_until`,
 `answered` and the bench of a single model).

 A key is a provider or one of its models.  Its strike record counts refusals in a row
 and remembers when the bench the last one earned ends.
 */
module Backoff {
  import opened Options
  import opened Ledger

  datatype Key = Provider(provider: string) | Model(provider: string, model: string)

  /** Refusals in a row and the end of the bench they earned. */
  datatype Strikes = Strikes(count: nat, until: Time)

  const WINDOW: Time := 60.0

  /** A provider's stated wait, if it is one the source believes; otherwise none (0). */
  function StatedWait(retryAfter: Option<Time>): (delay: Time)
    ensures 0.0 <= delay <= DAY
  {
    if retryAfter.Some? && 0.0 < retryAfter.value <= DAY then retryAfter.value else 0.0
  }

  function OrWindow(delay: Time): Time {
    if delay == 0.0 then WINDOW else delay
  }

  /** The refusal was sent before the bench it meets was known. */
  predicate InFlight(s: Option<Strikes>, now: Time) {
    s.Some? && now < s.value.until
  }

  function Hold(count: nat, delay: Time, cooldown: Time): Time {
    if count == 1 then OrWindow(delay)
    else if count == 2 then Later(delay, WINDOW)
    else Later(Later(delay, WINDOW), cooldown)
  }

  /** The strike record after a per-minute refusal; the throttle ends at its `until`. */
  function Strike(s: Option<Strikes>, now: Time, delay: Time, cooldown: Time): (r: Strikes)
  {
    if InFlight(s, now) then Strikes(s.value.count, Later(s.value.until, now + OrWindow(delay)))
    else
      var count := if s.Some? && now - s.value.until <= WINDOW then s.value.count + 1 else 1;
      Strikes(count, now + Hold(count, delay, cooldown))
  }

  class Benches {
    const cooldown: Time
    var minuteStrikes: map<Key, Strikes>
    var modelBlocks: map<(string, string), Time>

    constructor (cooldown: Time)
      ensures this.cooldown == cooldown && minuteStrikes == map[] && modelBlocks == map[]
    {
      this.cooldown := cooldown;
      minuteStrikes := map[];
      modelBlocks := map[];
    }

    function Record(key: Key): Option<Strikes>
      reads this
    {
      if key in minuteStrikes then Some(minuteStrikes[key]) else None
    }

    method ThrottleUntil(retryAfter: Option<Time>, perMinute: bool, key: Key, now: Time) returns (until: Time)
      modifies this`minuteStrikes
      ensures !perMinute ==> until == now + Later(cooldown, StatedWait(retryAfter)) && minuteStrikes == old(minuteStrikes)
      ensures perMinute ==>
                var s := Strike(old(Record(key)), now, StatedWait(retryAfter), cooldown);
                minuteStrikes == old(minuteStrikes)[key := s] && until == s.until
    {
      var delay := StatedWait(retryAfter);
      if !perMinute {
        return now + Later(cooldown, delay);
      }
      var isNew := key !in minuteStrikes;
      var count := if isNew then 0 else minuteStrikes[key].count;
      if !isNew && now < minuteStrikes[key].until {
        until := Later(minuteStrikes[key].until, now + OrWindow(delay));
        minuteStrikes := minuteStrikes[key := Strikes(count, until)];
        return;
      }
      count := if !isNew && now - minuteStrikes[key].until <= WINDOW then count + 1 else 1;
      var hold;
      if count == 1 {
        hold := OrWindow(delay);
      } else if count == 2 {
        hold := Later(delay, WINDOW);
      } else {
        hold := Later(Later(delay, WINDOW), cooldown);
      }
      minuteStrikes := minuteStrikes[key := Strikes(count, now + hold)];
      until := now + hold;
    }

    method Answered(provider: string, model: string)
      modifies this`minuteStrikes
      ensures minuteStrikes == old(minuteStrikes) - {Model(provider, model), Provider(provider)}
    {
      minuteStrikes := minuteStrikes - {Model(provider, model)};
      minuteStrikes := minuteStrikes - {Provider(provider)};
    }

    /** When a model's bench ends; a bench that is over may have been dropped. */
    function BenchEnd(provider: string, model: string): Option<Time>
      reads this
    {
      if (provider, model) in modelBlocks then Some(modelBlocks[(provider, model)]) else None
    }

    method BenchModel(provider: string, model: string, until: Time)
      modifies this`modelBlocks
      ensures var was := old(BenchEnd(provider, model));
              modelBlocks == old(modelBlocks)[(provider, model) := Later(if was.Some? then was.value else 0.0, until)]
      ensures old(BenchEnd(provider, model)).Some? ==>
                BenchEnd(provider, model).Some? && BenchEnd(provider, model).value >= old(BenchEnd(provider, model)).value
    {
      var was := if (provider, model) in modelBlocks then modelBlocks[(provider, model)] else 0.0;
      modelBlocks := modelBlocks[(provider, model) := Later(was, until)];
    }

    /** Free of a bench of its own; forgets a bench that is over, never one that runs. */
    method ModelAvailable(provider: string, model: string, now: Time) returns (free: bool)
      modifies this`modelBlocks
      ensures free <==> old(BenchEnd(provider, model)).None? || now >= old(BenchEnd(provider, model)).value
      ensures modelBlocks == if free then old(modelBlocks) - {(provider, model)} else old(modelBlocks)
    {
      if (provider, model) !in modelBlocks {
        return true;
      }
      if now >= modelBlocks[(provider, model)] {
        modelBlocks := modelBlocks - {(provider, model)};
        return true;
      }
      return false;
    }

    method ThrottleModel(provider: string, model: string, retryAfter: Option<Time>, perMinute: bool, now: Time)
      modifies this
      ensures var key := Model(provider, model);
              var was := old(BenchEnd(provider, model));
              var until := if perMinute then Strike(old(Record(key)), now, StatedWait(retryAfter), cooldown).until
                           else now + Later(cooldown, StatedWait(retryAfter));
              BenchEnd(provider, model) == Some(Later(if was.Some? then was.value else 0.0, until))
    {
      var until := ThrottleUntil(retryAfter, perMinute, Model(provider, model), now);
      BenchModel(provider, model, until);
    }
  }

  // ---------- one key's history ----------

  /** A refusal: when it was answered and the wait it stated (0 for none). */
  datatype Refusal = Refusal(at: Time, delay: Time)

  function After(s: Option<Strikes>, r: Refusal, cooldown: Time): Option<Strikes> {
    Some(Strike(s, r.at, r.delay, cooldown))
  }

  /** Refusals that all meet a running bench. */
  ghost predicate AllInFlight(s: Option<Strikes>, rs: seq<Refusal>, cooldown: Time)
    decreases |rs|
  {
    rs == [] || (InFlight(s, rs[0].at) && rs[0].delay >= 0.0 && AllInFlight(After(s, rs[0], cooldown), rs[1..], cooldown))
  }

  ghost function Play(s: Option<Strikes>, rs: seq<Refusal>, cooldown: Time): Option<Strikes>
    decreases |rs|
  {
    if rs == [] then s else Play(After(s, rs[0], cooldown), rs[1..], cooldown)
  }

  /** In-flight refusals never shorten the bench and never count as strikes. */
  lemma {:induction false} InFlightOnlyExtends(s: Option<Strikes>, rs: seq<Refusal>, cooldown: Time)
    requires s.Some? && AllInFlight(s, rs, cooldown)
    ensures Play(s, rs, cooldown).Some?
    ensures Play(s, rs, cooldown).value.count == s.value.count && Play(s, rs, cooldown).value.until >= s.value.until
    decreases |rs|
  {
    if rs != [] {
      InFlightOnlyExtends(After(s, rs[0], cooldown), rs[1..], cooldown);
    }
  }

  // ---------- all keys, refusals and answers ----------

  /** A per-minute refusal of a key with the wait it stated, or an answer of a model. */
  datatype Event =
    | Refused(key: Key, retryAfter: Option<Time>)
    | Answered(provider: string, model: string)

  datatype At = At(at: Time, event: Event)

  type Records = map<Key, Strikes>

  function RecordOf(records: Records, key: Key): Option<Strikes> { if key in records then Some(records[key]) else None }

  /** What `ThrottleUntil` and `Answered` leave remembered. */
  function Step(records: Records, e: At, cooldown: Time): Records {
    match e.event
    case Refused(key, retryAfter) => records[key := Strike(RecordOf(records, key), e.at, StatedWait(retryAfter), cooldown)]
    case Answered(provider, model) => records - {Model(provider, model), Provider(provider)}
  }

  function Run(records: Records, es: seq<At>, cooldown: Time): Records
    decreases |es|
  {
    if es == [] then records else Run(Step(records, es[0], cooldown), es[1..], cooldown)
  }

  /** An answer that ends the key's episode. */
  predicate Ends(e: At, key: Key) {
    e.event.Answered? && (key == Provider(e.event.provider) || key == Model(e.event.provider, e.event.model))
  }

  ghost predicate NoneEnds(es: seq<At>, key: Key) {
    forall k | 0 <= k < |es| :: !Ends(es[k], key)
  }

  /** The key has counted a refusal, and its bench lasts at least until `until`. */
  predicate BenchedUntil(records: Records, key: Key, until: Time) {
    key in records && records[key].count >= 1 && records[key].until >= until
  }

  /** Without an answer a key's record stays, and its bench's end never moves earlier. */
  lemma {:induction false} BenchesOnlyGrow(records: Records, es: seq<At>, key: Key, until: Time, cooldown: Time)
    requires BenchedUntil(records, key, until) && NoneEnds(es, key) && cooldown >= 0.0
    ensures BenchedUntil(Run(records, es, cooldown), key, until)
    decreases |es|
  {
    if es != [] {
      assert !Ends(es[0], key);
      BenchesOnlyGrow(Step(records, es[0], cooldown), es[1..], key, until, cooldown);
    }
  }

  /** A counted refusal after an earlier bench of the same episode: it holds a minute, or a minute has gone by. */
  lemma {:induction false} SecondHoldsAMinute(records: Records, e: At, key: Key, since: Time, cooldown: Time)
    requires e.event.Refused? && e.event.key == key && BenchedUntil(records, key, since)
    requires !InFlight(RecordOf(records, key), e.at) && cooldown >= 0.0
    ensures BenchedUntil(Step(records, e, cooldown), key, since + WINDOW) && Step(records, e, cooldown)[key].until >= e.at
  {
  }

  /**
   Over any history of refusals and answers of all providers and models: three refusals of
   one key, none of them in flight during its bench and no answer of that key between them,
   span at least a minute, whatever waits the provider states and whatever comes between.
   */
  lemma {:induction false} ThreeSpanAMinute(records: Records, first: At, between: seq<At>, second: At, after: seq<At>, third: At,
                                            key: Key, cooldown: Time)
    requires cooldown >= 0.0 && NoneEnds(between, key) && NoneEnds(after, key)
    requires first.event.Refused? && second.event.Refused? && third.event.Refused?
    requires first.event.key == second.event.key == third.event.key == key
    requires !InFlight(RecordOf(records, key), first.at)
    requires var b := Run(Step(records, first, cooldown), between, cooldown);
             && !InFlight(RecordOf(b, key), second.at)
             && !InFlight(RecordOf(Run(Step(b, second, cooldown), after, cooldown), key), third.at)
    ensures third.at - first.at >= WINDOW
  {
    var a := Step(records, first, cooldown);
    assert BenchedUntil(a, key, first.at);
    BenchesOnlyGrow(a, between, key, first.at, cooldown);
    var b := Run(a, between, cooldown);
    SecondHoldsAMinute(b, second, key, first.at, cooldown);
    var c := Step(b, second, cooldown);
    BenchesOnlyGrow(c, after, key, first.at + WINDOW, cooldown);
  }

  /** What happens to other keys leaves a key's record alone. */
  lemma {:induction false} KeysAreApart(records: Records, es: seq<At>, key: Key, cooldown: Time)
    requires NoneEnds(es, key) && forall k | 0 <= k < |es| :: es[k].event.Refused? ==> es[k].event.key != key
    ensures RecordOf(Run(records, es, cooldown), key) == RecordOf(records, key)
    decreases |es|
  {
    if es != [] {
      assert !Ends(es[0], key) && (es[0].event.Refused? ==> es[0].event.key != key);
      KeysAreApart(Step(records, es[0], cooldown), es[1..], key, cooldown);
    }
  }

  // ---------- an episode ----------

  /** Counted refusals, each no later than a minute after the previous bench ended. */
  ghost predicate Episode(s: Option<Strikes>, rs: seq<Refusal>, cooldown: Time)
    decreases |rs|
  {
    rs == [] || (s.Some? && s.value.until <= rs[0].at <= s.value.until + WINDOW
                 && Episode(After(s, rs[0], cooldown), rs[1..], cooldown))
  }

  /** Within an episode every refusal is a strike, and from the third on each earns at least the cooldown. */
  lemma {:induction false} EpisodeEscalates(s: Option<Strikes>, rs: seq<Refusal>, cooldown: Time)
    requires s.Some? && s.value.count >= 1 && Episode(s, rs, cooldown)
    ensures Play(s, rs, cooldown).Some? && Play(s, rs, cooldown).value.count == s.value.count + |rs|
    ensures rs != [] && s.value.count + |rs| >= 3 ==>
              Play(s, rs, cooldown).value.until >= rs[|rs| - 1].at + cooldown
    decreases |rs|
  {
    if rs != [] {
      EpisodeEscalates(After(s, rs[0], cooldown), rs[1..], cooldown);
    }
  }

  /** The first strike trusts a stated wait; the second holds a minute at least. */
  lemma {:induction false} EarlyStrikes(s: Option<Strikes>, r: Refusal, cooldown: Time)
    requires !InFlight(s, r.at) && r.delay >= 0.0
    ensures var after := Strike(s, r.at, r.delay, cooldown);
            && (after.count == 1 <==> s.None? || s.value.count == 0 || r.at > s.value.until + WINDOW)
            && (after.count == 1 && r.delay > 0.0 ==> after.until == r.at + r.delay)
            && (after.count >= 2 ==> after.until >= r.at + WINDOW)
  {
  }

  /** A wait a provider may state: more than nothing, no more than a day. */
  predicate Believable(retryAfter: Option<Time>) { retryAfter.Some? && 0.0 < retryAfter.value <= DAY }

  /**
   How long each refusal holds.  The first of an episode holds the stated wait as stated, or a
   minute where none is stated; the second a minute at least; the third the cooldown too;
   one in flight moves the end only as far as a first one would.
   */
  lemma {:induction false} WaitsAreHeld(records: Records, at: Time, key: Key, retryAfter: Option<Time>, cooldown: Time)
    ensures var s := RecordOf(records, key);
            var after := Step(records, At(at, Refused(key, retryAfter)), cooldown)[key];
            var first := if Believable(retryAfter) then retryAfter.value else WINDOW;
            var later := if Believable(retryAfter) && retryAfter.value > WINDOW then retryAfter.value else WINDOW;
            && (s.None? || at > s.value.until + WINDOW ==> after == Strikes(1, at + first))
            && (s.Some? && s.value.until <= at <= s.value.until + WINDOW ==>
                  && after.count == s.value.count + 1
                  && (after.count == 1 ==> after.until == at + first) && (after.count == 2 ==> after.until == at + later)
                  && (after.count != 1 && after.count != 2 ==> after.until == at + if cooldown > later then cooldown else later))
            && (s.Some? && at < s.value.until ==>
                  after.count == s.value.count && after.until == if at + first > s.value.until then at + first else s.value.until)
  {
  }
}

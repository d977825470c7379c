/**
 The answer cache (fair/embedded/cache.py): bounded, least recently used first, and judged
 afresh on every hit.

 `digest` stands for the SHA-256 of the request and the profile, in hexadecimal.  No digest
 tells all requests apart; what is used of it is that it tells apart the finitely many
 `seen` in a run, and has no colon there.
 */
module Cache {
  import opened Options
  import opened Lists
  import opened JsonValues
  import opened Fence
  import opened JsonText
  import opened Engine

  type Time = real

  datatype Settings = Settings(enabled: bool, ttl: nat, maxEntries: nat)

  /** What a solve returned. */
  datatype Result = Result(accepted: bool, cacheHit: bool, primary: bool, output: Option<string>, quality: Option<Report>, provider: string, model: string)

  datatype Entry = Entry(result: Result, createdAt: Time, expiresAt: Time)

  datatype Hit = Hit(output: string, quality: Report, provider: string, model: string)

  /** What the registry says of the route that gave the answer. */
  datatype Admission = Admitted | Denied | NoAdapter | ModelGone

  type Slot = (string, Entry)

  type Digest = (Request, Profile) -> string

  // ---------- keys ----------

  /** The request without the fields that do not change its answer. */
  function Blanked(request: Request): Request { request.(mode := Use, ttl := None) }

  predicate Cacheable(enabled: bool, request: Request, profile: Profile) {
    && enabled && request.mode != Bypass
    && request.validation.Some? && (request.validation.value.Arithmetic? || request.validation.value.ReferenceJson?)
    && !request.freshness && !profile.requiresGrounding && !request.crossCheck && !request.highImpact
    && request.evidence == map[] && !request.sourcePolicy
  }

  function KeyText(digest: Digest, request: Request, profile: Profile): string {
    request.client + ":" + digest(Blanked(request), profile)
  }

  function CacheKey(digest: Digest, enabled: bool, request: Request, profile: Profile): Option<string> {
    if Cacheable(enabled, request, profile) then Some(KeyText(digest, request, profile)) else None
  }

  type Pair = (Request, Profile)

  function DigestOf(digest: Digest, x: Pair): string { digest(Blanked(x.0), x.1) }

  /** On the requests of a run the digest has no collision and no colon. */
  ghost predicate TellsApart(digest: Digest, seen: set<Pair>) {
    && (forall x <- seen :: ':' !in DigestOf(digest, x))
    && (forall x, y | x in seen && y in seen && DigestOf(digest, x) == DigestOf(digest, y) ::
          Blanked(x.0) == Blanked(y.0) && x.1 == y.1)
  }

  /** What follows the last colon of two equal texts is the same. */
  lemma {:induction false} SameTail(a: string, x: string, b: string, y: string)
    requires a + ":" + x == b + ":" + y && ':' !in x && ':' !in y
    ensures x == y
  {
    var s := a + ":" + x;
    assert s[|a|] == ':' && s[|b|] == ':';
    assert x == s[|a| + 1..] && y == s[|b| + 1..];
    assert forall k | 0 <= k < |x| :: s[|a| + 1 + k] == x[k] && x[k] != ':';
    assert forall k | 0 <= k < |y| :: s[|b| + 1 + k] == y[k] && y[k] != ':';
  }

  /** Two requests share a key exactly if they are the same but for cache mode and time, under the same profile. */
  lemma {:induction false} KeysTellRequestsApart(digest: Digest, seen: set<Pair>, x: Pair, y: Pair)
    requires TellsApart(digest, seen) && x in seen && y in seen
    ensures KeyText(digest, x.0, x.1) == KeyText(digest, y.0, y.1) <==>
              x.0 == y.0.(mode := x.0.mode, ttl := x.0.ttl) && x.1 == y.1
  {
    if KeyText(digest, x.0, x.1) == KeyText(digest, y.0, y.1) {
      SameTail(x.0.client, DigestOf(digest, x), y.0.client, DigestOf(digest, y));
    }
  }

  function Marks(n: nat): (s: string)
    ensures |s| == n && ':' !in s
  {
    if n == 0 then "" else Marks(n - 1) + "x"
  }

  function Place(x: Pair, listed: seq<Pair>): (k: nat)
    ensures x in listed ==> k < |listed| && listed[k] == x
  {
    if listed == [] || listed[0] == x then 0 else 1 + Place(x, listed[1..])
  }

  lemma {:induction false} Listed(seen: set<Pair>) returns (listed: seq<Pair>)
    ensures forall x <- seen :: x in listed
  {
    listed := [];
    if seen != {} {
      var x :| x in seen;
      var rest := Listed(seen - {x});
      listed := [x] + rest;
    }
  }

  /** Whatever finite set of requests is in play, some digest tells them apart. */
  lemma {:induction false} SomeDigestTellsApart(seen: set<Pair>) returns (digest: Digest)
    ensures TellsApart(digest, seen)
  {
    var blanked := set x | x in seen :: (Blanked(x.0), x.1);
    var listed := Listed(blanked);
    digest := (request, profile) => Marks(Place((request, profile), listed));
    forall x, y | x in seen && y in seen && DigestOf(digest, x) == DigestOf(digest, y)
      ensures Blanked(x.0) == Blanked(y.0) && x.1 == y.1
    {
      var a, b := (Blanked(x.0), x.1), (Blanked(y.0), y.1);
      assert a in blanked && b in blanked;
      assert Place(a, listed) == |DigestOf(digest, x)| == |DigestOf(digest, y)| == Place(b, listed);
    }
  }

  // ---------- entries in order of use ----------

  function Keys(slots: seq<Slot>): (keys: seq<string>)
    ensures |keys| == |slots| && forall k | 0 <= k < |slots| :: keys[k] == slots[k].0
  {
    seq(|slots|, k requires 0 <= k < |slots| => slots[k].0)
  }

  function Find(slots: seq<Slot>, key: string): (e: Option<Entry>)
    ensures e.None? <==> key !in Keys(slots)
    ensures e.Some? ==> (key, e.value) in slots
  {
    if slots == [] then None
    else
      assert Keys(slots) == [slots[0].0] + Keys(slots[1..]);
      if slots[0].0 == key then Some(slots[0].1) else Find(slots[1..], key)
  }

  function Without(slots: seq<Slot>, key: string): (r: seq<Slot>)
    ensures forall slot :: slot in r <==> slot in slots && slot.0 != key
    ensures |r| <= |slots| && (key in Keys(slots) ==> |r| < |slots|)
  {
    if slots == [] then []
    else
      assert Keys(slots) == [slots[0].0] + Keys(slots[1..]);
      (if slots[0].0 == key then [] else [slots[0]]) + Without(slots[1..], key)
  }

  /** The slots of other clients, when `prefix` is one client's. */
  function NotOf(slots: seq<Slot>, prefix: string): (r: seq<Slot>)
    ensures forall slot :: slot in r <==> slot in slots && !(prefix <= slot.0)
    ensures |r| <= |slots|
  {
    if slots == [] then [] else (if prefix <= slots[0].0 then [] else [slots[0]]) + NotOf(slots[1..], prefix)
  }

  function LastOf(slots: seq<Slot>, n: nat): seq<Slot> {
    if |slots| <= n then slots else slots[|slots| - n..]
  }

  lemma {:induction false} KeyIsASlot(slots: seq<Slot>, key: string)
    requires key in Keys(slots)
    ensures exists slot :: slot in slots && slot.0 == key
  {
    var k :| 0 <= k < |slots| && Keys(slots)[k] == key;
    assert slots[k] in slots;
  }

  lemma {:induction false} WithoutKeepsUnique(slots: seq<Slot>, key: string)
    requires Unique(Keys(slots))
    ensures Unique(Keys(Without(slots, key))) && key !in Keys(Without(slots, key))
  {
    if slots != [] {
      TailUnique(slots);
      WithoutKeepsUnique(slots[1..], key);
      var rest := Without(slots[1..], key);
      if slots[0].0 != key {
        if slots[0].0 in Keys(rest) {
          KeyIsASlot(rest, slots[0].0);
        }
        Prepend(slots[0], rest);
      }
    }
  }

  lemma {:induction false} NotOfKeepsUnique(slots: seq<Slot>, prefix: string)
    requires Unique(Keys(slots))
    ensures Unique(Keys(NotOf(slots, prefix)))
  {
    if slots != [] {
      TailUnique(slots);
      NotOfKeepsUnique(slots[1..], prefix);
      var rest := NotOf(slots[1..], prefix);
      if slots[0].0 in Keys(rest) {
        KeyIsASlot(rest, slots[0].0);
      }
      Prepend(slots[0], rest);
    }
  }

  lemma {:induction false} TailUnique(slots: seq<Slot>)
    requires slots != [] && Unique(Keys(slots))
    ensures Unique(Keys(slots[1..])) && forall slot <- slots[1..] :: slot.0 != slots[0].0
  {
    var keys := Keys(slots);
    assert forall k | 0 <= k < |slots| - 1 :: Keys(slots[1..])[k] == keys[k + 1];
    forall slot | slot in slots[1..] ensures slot.0 != slots[0].0 {
      var k :| 0 <= k < |slots| - 1 && slots[1..][k] == slot;
      assert keys[k + 1] == slot.0;
    }
  }

  lemma {:induction false} Prepend(slot: Slot, rest: seq<Slot>)
    requires Unique(Keys(rest)) && slot.0 !in Keys(rest)
    ensures Unique(Keys([slot] + rest))
  {
    assert Keys([slot] + rest) == [slot.0] + Keys(rest);
  }

  lemma {:induction false} Append(slots: seq<Slot>, slot: Slot)
    requires Unique(Keys(slots)) && slot.0 !in Keys(slots)
    ensures Unique(Keys(slots + [slot]))
  {
    assert Keys(slots + [slot]) == Keys(slots) + [slot.0];
  }

  lemma {:induction false} FoundOnce(slots: seq<Slot>, key: string, e: Entry)
    requires Unique(Keys(slots)) && (key, e) in slots
    ensures Find(slots, key) == Some(e)
  {
    var i :| 0 <= i < |slots| && slots[i] == (key, e);
    assert Keys(slots)[i] == key;
    var found := Find(slots, key).value;
    var j :| 0 <= j < |slots| && slots[j] == (key, found);
    assert Keys(slots)[j] == key;
    assert !(i < j) && !(j < i);
  }

  // ---------- why a hit is accepted again ----------

  /** The answer as the caller receives it (fair/embedded/router.py, `_output`). */
  function Output(judge: Judge, request: Request, text: string): string {
    if ExpectsDocument(request) && JsonOf(judge.parse, judge.word, text).Some? then JsonOf(judge.parse, judge.word, text).value else text
  }

  /** A stored answer, as `get` judges it. */
  function AsStored(text: string): Response { Response(text, "stop", [], []) }

  lemma {:induction false} NotBlank(judge: Judge, text: string)
    requires NeverATick(judge.parse) && judge.parse(text).Some?
    ensures !Blank(text)
  {
    assert var w := Skip(Spaces, text, 0); w < |text| && text[w] != '`';
  }

  /**
   What is handed back for an accepted answer is accepted when judged again on its own,
   for every request the cache holds answers to.
   */
  lemma {:induction false} OutputIsAcceptedAgain(judge: Judge, request: Request, profile: Profile, response: Response)
    requires NeverATick(judge.parse) && Cacheable(true, request, profile)
    requires Acceptable(ReportOf(judge, request, profile, response, NotRequested), profile)
    ensures Acceptable(ReportOf(judge, request, profile, AsStored(Output(judge, request, response.text)), NotRequested), profile)
    ensures ReportOf(judge, request, profile, AsStored(Output(judge, request, response.text)), NotRequested).score ==
            ReportOf(judge, request, profile, response, NotRequested).score
  {
    var again := AsStored(Output(judge, request, response.text));
    AcceptedExactly(judge, request, profile, response, NotRequested);
    AcceptedExactly(judge, request, profile, again, NotRequested);
    hide ReportOf, Unsupported, Blank, Acceptable, ReadJson;
    if request.validation.value.ReferenceJson? {
      ReadingIsCanonical(judge.parse, judge.word, response.text);
      NotBlank(judge, again.text);
    }
    SameScore(judge, request, profile, response, again);
  }

  lemma {:induction false} SameScore(judge: Judge, request: Request, profile: Profile, a: Response, b: Response)
    requires request.validation.Some?
    requires Acceptable(ReportOf(judge, request, profile, a, NotRequested), profile)
    requires Acceptable(ReportOf(judge, request, profile, b, NotRequested), profile)
    ensures ReportOf(judge, request, profile, a, NotRequested).score == ReportOf(judge, request, profile, b, NotRequested).score
  {
    hide Reasons, ProseNote, Unsupported, Matched;
    NoneDistinct(Reasons(judge, request, profile, a));
    NoneDistinct(Reasons(judge, request, profile, b));
  }

  /** The judgement of an answer does not look at what the key leaves out. */
  lemma {:induction false} JudgedByTheKey(judge: Judge, a: Request, b: Request, profile: Profile, text: string)
    requires Blanked(a) == Blanked(b) && Cacheable(true, a, profile) && Cacheable(true, b, profile)
    ensures ReportOf(judge, a, profile, AsStored(text), NotRequested) == ReportOf(judge, b, profile, AsStored(text), NotRequested)
  {
    assert a.validation == Blanked(a).validation == Blanked(b).validation == b.validation;
    assert a.schema == Blanked(a).schema == Blanked(b).schema == b.schema;
    assert a.freshness == b.freshness && a.evidence == b.evidence;
    hide ReadJson, CitationReasons, ContradictionReasons, Distinct;
    assert ExpectsDocument(a) == ExpectsDocument(b);
    assert Reasons(judge, a, profile, AsStored(text)) == Reasons(judge, b, profile, AsStored(text));
  }

  // ---------- the cache ----------

  /** A stored answer that is accepted when judged for this request. */
  ghost predicate Earned(judge: Judge, request: Request, profile: Profile, e: Entry) {
    && e.result.accepted && e.result.output.Some? && e.result.quality.Some?
    && Acceptable(ReportOf(judge, request, profile, AsStored(e.result.output.value), NotRequested), profile)
  }

  /** Every slot is earned for every request in play that it would answer. */
  ghost predicate Sound(judge: Judge, digest: Digest, seen: set<Pair>, slots: seq<Slot>) {
    forall slot, x | slot in slots && x in seen && Cacheable(true, x.0, x.1) && KeyText(digest, x.0, x.1) == slot.0 ::
      Earned(judge, x.0, x.1, slot.1)
  }

  /** What a solve hands the cache: an accepted answer comes from an answer the gate accepted. */
  ghost predicate FromSolve(judge: Judge, request: Request, profile: Profile, result: Result) {
    result.accepted ==>
      && result.output.Some? && result.quality.Some?
      && exists response ::
           Acceptable(ReportOf(judge, request, profile, response, NotRequested), profile)
           && result.output.value == Output(judge, request, response.text)
  }

  function Ttl(settings: Settings, request: Request): Time {
    var asked := if request.ttl.Some? && request.ttl.value != 0 then request.ttl.value else settings.ttl;
    (if asked < settings.ttl then asked else settings.ttl) as real
  }

  /** The entry may still answer this request. */
  predicate Current(settings: Settings, request: Request, e: Entry, now: Time) {
    && request.mode != Refresh
    && e.createdAt <= now < e.expiresAt && now < e.createdAt + Ttl(settings, request)
  }

  lemma {:induction false} EarnedByKey(judge: Judge, digest: Digest, seen: set<Pair>, x: Pair, y: Pair, e: Entry)
    requires TellsApart(digest, seen) && x in seen && y in seen && KeyText(digest, x.0, x.1) == KeyText(digest, y.0, y.1)
    requires Cacheable(true, x.0, x.1) && Cacheable(true, y.0, y.1) && Earned(judge, x.0, x.1, e)
    ensures Earned(judge, y.0, y.1, e)
  {
    hide ReportOf, TellsApart, Cacheable;
    KeysTellRequestsApart(digest, seen, x, y);
    JudgedByTheKey(judge, x.0, y.0, x.1, e.result.output.value);
  }

  lemma {:induction false} FewerAreSound(judge: Judge, digest: Digest, seen: set<Pair>, slots: seq<Slot>, fewer: seq<Slot>)
    requires Sound(judge, digest, seen, slots) && forall slot <- fewer :: slot in slots
    ensures Sound(judge, digest, seen, fewer)
  {
    hide Earned, Cacheable, KeyText;
  }

  lemma {:induction false} OneMoreIsSound(judge: Judge, digest: Digest, seen: set<Pair>, slots: seq<Slot>, x: Pair, e: Entry)
    requires TellsApart(digest, seen) && Sound(judge, digest, seen, slots)
    requires x in seen && Cacheable(true, x.0, x.1) && Earned(judge, x.0, x.1, e)
    ensures Sound(judge, digest, seen, slots + [(KeyText(digest, x.0, x.1), e)])
  {
    hide Earned, Cacheable, KeyText, TellsApart;
    var slot := (KeyText(digest, x.0, x.1), e);
    forall other, y | other in slots + [slot] && y in seen && Cacheable(true, y.0, y.1) && KeyText(digest, y.0, y.1) == other.0
      ensures Earned(judge, y.0, y.1, other.1)
    {
      if other == slot {
        EarnedByKey(judge, digest, seen, x, y, e);
      }
    }
  }

  /** A note on the prose that was removed is carried over from the first judgement. */
  function WithProvenance(quality: Report, original: Report, profile: Profile): (r: Report)
    ensures Acceptable(quality, profile) ==> Acceptable(r, profile)
    ensures r.proseRemoved <==> quality.proseRemoved || original.proseRemoved
  {
    if original.proseRemoved then quality.(proseRemoved := true) else quality
  }

  datatype Setup = Setup(judge: Judge, digest: Digest, settings: Settings)

  datatype Event =
    | Look(pair: Pair, now: Time, stopped: bool, admission: Admission)
    | Store(pair: Pair, result: Result, now: Time, stopped: bool)
    | Forget(client: string)

  function KeyOf(c: Setup, x: Pair): Option<string> { CacheKey(c.digest, c.settings.enabled, x.0, x.1) }

  /** The event concerns the cache at all. */
  predicate Effective(c: Setup, e: Event) {
    match e
    case Look(x, _, stopped, _) => KeyOf(c, x).Some? && !stopped
    case Store(x, result, _, stopped) => KeyOf(c, x).Some? && !stopped && result.accepted && !result.cacheHit && result.primary
    case Forget(_) => true
  }

  /** What a look-up answers and leaves stored. */
  function LookedUp(c: Setup, slots: seq<Slot>, key: string, x: Pair, now: Time, admission: Admission): (Option<Hit>, seq<Slot>) {
    var found := Find(slots, key);
    if found.None? then (None, slots)
    else
      var e := found.value;
      if !Current(c.settings, x.0, e, now) || admission == Denied then (None, Without(slots, key))
      else if admission == NoAdapter then (None, slots)
      else if !e.result.accepted || e.result.output.None? || e.result.quality.None? then (None, Without(slots, key))
      else if admission == ModelGone then (None, slots)
      else
        var quality := ReportOf(c.judge, x.0, x.1, AsStored(e.result.output.value), NotRequested);
        if !Acceptable(quality, x.1) then (None, Without(slots, key))
        else
          (Some(Hit(e.result.output.value, WithProvenance(quality, e.result.quality.value, x.1), e.result.provider, e.result.model)),
           Without(slots, key) + [(key, e)])
  }

  /** What storing an answer leaves stored. */
  function Stored(settings: Settings, slots: seq<Slot>, key: string, request: Request, result: Result, now: Time): seq<Slot> {
    LastOf(Without(slots, key) + [(key, Entry(result, now, now + Ttl(settings, request)))], settings.maxEntries)
  }

  /** What a look-up answers. */
  function Answer(c: Setup, slots: seq<Slot>, x: Pair, now: Time, stopped: bool, admission: Admission): Option<Hit> {
    if !Effective(c, Look(x, now, stopped, admission)) then None else LookedUp(c, slots, KeyOf(c, x).value, x, now, admission).0
  }

  /** What an event leaves stored. */
  function After(c: Setup, slots: seq<Slot>, e: Event): seq<Slot> {
    if !Effective(c, e) then slots
    else
      match e
      case Look(x, now, _, admission) => LookedUp(c, slots, KeyOf(c, x).value, x, now, admission).1
      case Store(x, result, now, _) => Stored(c.settings, slots, KeyOf(c, x).value, x.0, result, now)
      case Forget(client) => NotOf(slots, client + ":")
  }

  class MemoryCache {
    const setup: Setup
    var slots: seq<Slot>

    ghost predicate Valid()
      reads this
    {
      WellKept(setup, slots)
    }

    constructor (setup: Setup)
      ensures Valid() && slots == [] && this.setup == setup
    {
      this.setup := setup;
      slots := [];
    }

    /** Look an answer up: see `HitExactlyWhenCurrent` for what that comes to. */
    method Get(request: Request, profile: Profile, now: Time, stopped: bool, admission: Admission) returns (r: Option<Hit>)
      requires Valid()
      modifies this`slots
      ensures Valid()
      ensures r == Answer(setup, old(slots), (request, profile), now, stopped, admission)
      ensures slots == After(setup, old(slots), Look((request, profile), now, stopped, admission))
    {
      hide ReportOf, Acceptable, Cacheable, Current;
      StepIsWellKept(setup, slots, Look((request, profile), now, stopped, admission));
      var key := CacheKey(setup.digest, setup.settings.enabled, request, profile);
      if key.None? || stopped {
        return None;
      }
      var found := Find(slots, key.value);
      if found.None? {
        return None;
      }
      var entry := found.value;
      if !Current(setup.settings, request, entry, now) {
        slots := Without(slots, key.value);
        return None;
      }
      if admission == Denied {
        slots := Without(slots, key.value);
        return None;
      }
      if admission == NoAdapter {
        return None;
      }
      if !entry.result.accepted || entry.result.output.None? || entry.result.quality.None? {
        slots := Without(slots, key.value);
        return None;
      }
      if admission == ModelGone {
        return None;
      }
      var quality := Evaluate(setup.judge, request, profile, AsStored(entry.result.output.value), NotRequested);
      if !Acceptable(quality, profile) {
        slots := Without(slots, key.value);
        return None;
      }
      slots := Without(slots, key.value) + [(key.value, entry)];
      r := Some(Hit(entry.result.output.value, WithProvenance(quality, entry.result.quality.value, profile), entry.result.provider, entry.result.model));
    }

    /** Store an accepted answer as the most recently used, dropping the least recently used beyond the bound. */
    method Put(request: Request, profile: Profile, result: Result, now: Time, stopped: bool)
      requires Valid()
      modifies this`slots
      ensures Valid() && slots == After(setup, old(slots), Store((request, profile), result, now, stopped))
    {
      hide Cacheable, Unique, Ttl, Keys, Without, LastOf;
      var key := CacheKey(setup.digest, setup.settings.enabled, request, profile);
      if key.None? || stopped || !result.accepted || result.cacheHit || !result.primary {
        return;
      }
      var entry := Entry(result, now, now + Ttl(setup.settings, request));
      WithoutKeepsUnique(slots, key.value);
      Append(Without(slots, key.value), (key.value, entry));
      slots := Without(slots, key.value) + [(key.value, entry)];
      Evict();
    }

    /** `while len(entries) > max_entries: popitem(last=False)` */
    method Evict()
      requires Unique(Keys(slots))
      modifies this`slots
      ensures Valid() && slots == LastOf(old(slots), setup.settings.maxEntries)
    {
      hide Unique, Keys;
      ghost var all, dropped := slots, 0;
      while |slots| > setup.settings.maxEntries
        invariant 0 <= dropped <= |all| && slots == all[dropped..]
        invariant dropped > 0 ==> |slots| >= setup.settings.maxEntries
        invariant Unique(Keys(slots))
      {
        TailUnique(slots);
        slots := slots[1..];
        dropped := dropped + 1;
      }
    }

    /** Remove a client's entries: every key that begins with its name and a colon. */
    method Clear(client: string) returns (removed: nat)
      requires Valid()
      modifies this`slots
      ensures Valid() && slots == After(setup, old(slots), Forget(client)) && removed == |old(slots)| - |slots|
    {
      NotOfKeepsUnique(slots, client + ":");
      removed := |slots| - |NotOf(slots, client + ":")|;
      slots := NotOf(slots, client + ":");
    }
  }

  // ---------- every run of the cache ----------

  lemma {:induction false} StoredIsEarned(judge: Judge, digest: Digest, seen: set<Pair>, slots: seq<Slot>, x: Pair, e: Entry)
    requires Sound(judge, digest, seen, slots) && x in seen && Cacheable(true, x.0, x.1) && (KeyText(digest, x.0, x.1), e) in slots
    ensures Earned(judge, x.0, x.1, e)
  {
    hide Earned, Cacheable, KeyText;
  }

  lemma {:induction false} EarnedMeans(judge: Judge, request: Request, profile: Profile, e: Entry)
    requires Earned(judge, request, profile, e)
    ensures e.result.accepted && e.result.output.Some? && e.result.quality.Some?
    ensures Acceptable(ReportOf(judge, request, profile, AsStored(e.result.output.value), NotRequested), profile)
  {
  }

  lemma {:induction false} SolvedIsEarned(judge: Judge, request: Request, profile: Profile, e: Entry)
    requires NeverATick(judge.parse) && Cacheable(true, request, profile) && FromSolve(judge, request, profile, e.result) && e.result.accepted
    ensures Earned(judge, request, profile, e)
  {
    hide ReportOf, Acceptable, Output;
    var response :| Acceptable(ReportOf(judge, request, profile, response, NotRequested), profile)
                    && e.result.output.value == Output(judge, request, response.text);
    OutputIsAcceptedAgain(judge, request, profile, response);
  }

  lemma {:induction false} GetKeepsSound(c: Setup, seen: set<Pair>, slots: seq<Slot>, key: string, x: Pair, now: Time, admission: Admission)
    requires Sound(c.judge, c.digest, seen, slots)
    ensures Sound(c.judge, c.digest, seen, LookedUp(c, slots, key, x, now, admission).1)
  {
    hide ReportOf, Acceptable, Sound, Current;
    FewerAreSound(c.judge, c.digest, seen, slots, LookedUp(c, slots, key, x, now, admission).1);
  }

  lemma {:induction false} PutKeepsSound(c: Setup, seen: set<Pair>, slots: seq<Slot>, x: Pair, result: Result, now: Time)
    requires Sound(c.judge, c.digest, seen, slots) && TellsApart(c.digest, seen) && NeverATick(c.judge.parse)
    requires x in seen && Cacheable(true, x.0, x.1) && result.accepted && FromSolve(c.judge, x.0, x.1, result)
    ensures Sound(c.judge, c.digest, seen, Stored(c.settings, slots, KeyText(c.digest, x.0, x.1), x.0, result, now))
  {
    hide ReportOf, Acceptable, Sound, Earned, TellsApart, Output, Cacheable, KeyText, FromSolve;
    var key := KeyText(c.digest, x.0, x.1);
    var entry := Entry(result, now, now + Ttl(c.settings, x.0));
    SolvedIsEarned(c.judge, x.0, x.1, entry);
    FewerAreSound(c.judge, c.digest, seen, slots, Without(slots, key));
    OneMoreIsSound(c.judge, c.digest, seen, Without(slots, key), x, entry);
    FewerAreSound(c.judge, c.digest, seen, Without(slots, key) + [(key, entry)], Stored(c.settings, slots, key, x.0, result, now));
  }

  /** Requests come from those in play, and accepted results from the gate. */
  ghost predicate InPlay(c: Setup, seen: set<Pair>, e: Event) {
    match e
    case Look(x, _, _, _) => x in seen
    case Store(x, result, _, _) => x in seen && (Cacheable(true, x.0, x.1) ==> FromSolve(c.judge, x.0, x.1, result))
    case Forget(_) => true
  }

  lemma {:induction false} StepIsSound(c: Setup, seen: set<Pair>, slots: seq<Slot>, e: Event)
    requires Sound(c.judge, c.digest, seen, slots) && TellsApart(c.digest, seen) && NeverATick(c.judge.parse) && InPlay(c, seen, e)
    ensures Sound(c.judge, c.digest, seen, After(c, slots, e))
  {
    hide Sound, TellsApart, NeverATick, FromSolve, LookedUp, Stored, KeyText;
    KeyIsText(c, e);
    match e
    case Look(x, now, stopped, admission) =>
      if KeyOf(c, x).Some? && !stopped {
        GetKeepsSound(c, seen, slots, KeyOf(c, x).value, x, now, admission);
      }
    case Store(x, result, now, _) =>
      if Effective(c, e) {
        PutKeepsSound(c, seen, slots, x, result, now);
      }
    case Forget(client) =>
      FewerAreSound(c.judge, c.digest, seen, slots, NotOf(slots, client + ":"));
  }

  lemma {:induction false} KeyIsText(c: Setup, e: Event)
    ensures !e.Forget? && KeyOf(c, e.pair).Some? ==>
              Cacheable(true, e.pair.0, e.pair.1) && KeyOf(c, e.pair).value == KeyText(c.digest, e.pair.0, e.pair.1)
  {
  }

  ghost predicate WellKept(c: Setup, slots: seq<Slot>) {
    Unique(Keys(slots)) && |slots| <= c.settings.maxEntries
  }

  lemma {:induction false} LastKeepsUnique(slots: seq<Slot>, n: nat)
    requires Unique(Keys(slots))
    ensures Unique(Keys(LastOf(slots, n)))
  {
    var r := LastOf(slots, n);
    forall i, j | 0 <= i < j < |r| ensures Keys(r)[i] != Keys(r)[j] {
      var skipped := |slots| - |r|;
      assert Keys(slots)[skipped + i] == Keys(r)[i] && Keys(slots)[skipped + j] == Keys(r)[j];
    }
  }

  lemma {:induction false} LookIsWellKept(c: Setup, slots: seq<Slot>, key: string, x: Pair, now: Time, admission: Admission)
    requires WellKept(c, slots)
    ensures WellKept(c, LookedUp(c, slots, key, x, now, admission).1)
  {
    hide Unique, ReportOf, Acceptable, Current, Find, Without;
    WithoutKeepsUnique(slots, key);
    if Find(slots, key).Some? {
      Append(Without(slots, key), (key, Find(slots, key).value));
    }
  }

  lemma {:induction false} StoreIsWellKept(c: Setup, slots: seq<Slot>, key: string, x: Pair, result: Result, now: Time)
    requires WellKept(c, slots)
    ensures WellKept(c, Stored(c.settings, slots, key, x.0, result, now))
  {
    hide Unique, Ttl, Without;
    var entry := Entry(result, now, now + Ttl(c.settings, x.0));
    WithoutKeepsUnique(slots, key);
    Append(Without(slots, key), (key, entry));
    LastKeepsUnique(Without(slots, key) + [(key, entry)], c.settings.maxEntries);
  }

  lemma {:induction false} StepIsWellKept(c: Setup, slots: seq<Slot>, e: Event)
    requires WellKept(c, slots)
    ensures WellKept(c, After(c, slots, e))
  {
    hide Unique, LookedUp, Stored, KeyOf;
    match e
    case Look(x, now, _, admission) =>
      if Effective(c, e) {
        LookIsWellKept(c, slots, KeyOf(c, x).value, x, now, admission);
      }
    case Store(x, result, now, _) =>
      if Effective(c, e) {
        StoreIsWellKept(c, slots, KeyOf(c, x).value, x, result, now);
      }
    case Forget(client) =>
      NotOfKeepsUnique(slots, client + ":");
  }

  ghost predicate AllInPlay(c: Setup, seen: set<Pair>, es: seq<Event>) {
    forall k | 0 <= k < |es| :: InPlay(c, seen, es[k])
  }

  function Run(c: Setup, slots: seq<Slot>, es: seq<Event>): seq<Slot>
    decreases |es|
  {
    if es == [] then slots else Run(c, After(c, slots, es[0]), es[1..])
  }

  /** Every run keeps the cache bounded, its keys apart and each slot earned for what it would answer. */
  lemma {:induction false} RunIsSound(c: Setup, seen: set<Pair>, slots: seq<Slot>, es: seq<Event>)
    requires TellsApart(c.digest, seen) && NeverATick(c.judge.parse) && AllInPlay(c, seen, es)
    requires Sound(c.judge, c.digest, seen, slots) && WellKept(c, slots)
    ensures Sound(c.judge, c.digest, seen, Run(c, slots, es)) && WellKept(c, Run(c, slots, es))
    decreases |es|
  {
    hide Sound, TellsApart, NeverATick, InPlay, WellKept, After;
    if es != [] {
      assert InPlay(c, seen, es[0]);
      StepIsSound(c, seen, slots, es[0]);
      StepIsWellKept(c, slots, es[0]);
      RunIsSound(c, seen, After(c, slots, es[0]), es[1..]);
    }
  }

  /**
   A request is answered from the cache exactly when a current entry is stored under its key
   and the entry's route is still admitted: judged again, a stored answer is never found
   wanting.  The answer given is the stored one, and acceptable for this request.
   */
  lemma {:induction false} HitExactlyWhenCurrent(c: Setup, seen: set<Pair>, slots: seq<Slot>, x: Pair, now: Time, admission: Admission)
    requires Sound(c.judge, c.digest, seen, slots) && x in seen && KeyOf(c, x).Some?
    ensures var key := KeyOf(c, x).value;
            var hit := Answer(c, slots, x, now, false, admission);
            && (hit.Some? <==> Find(slots, key).Some? && Current(c.settings, x.0, Find(slots, key).value, now) && admission == Admitted)
            && (hit.Some? ==> Some(hit.value.output) == Find(slots, key).value.result.output && Acceptable(hit.value.quality, x.1))
  {
    hide ReportOf, Acceptable, Sound, Earned, Cacheable, KeyText, Current;
    KeyIsText(c, Look(x, now, false, admission));
    var found := Find(slots, KeyOf(c, x).value);
    if found.Some? {
      StoredIsEarned(c.judge, c.digest, seen, slots, x, found.value);
      EarnedMeans(c.judge, x.0, x.1, found.value);
    }
  }

  // ---------- which entries survive ----------

  /** `key` holds `e`, and every entry used more recently has a key in `others`. */
  ghost predicate Recent(slots: seq<Slot>, key: string, e: Entry, others: set<string>) {
    exists a, b :: slots == a + [(key, e)] + b && forall slot <- b :: slot.0 in others
  }

  /** The keys an event uses. */
  function Used(c: Setup, e: Event): set<string> {
    if Effective(c, e) && !e.Forget? then {KeyOf(c, e.pair).value} else {}
  }

  /** The event is no reason to drop or replace the entry under `key`. */
  predicate Spares(c: Setup, key: string, e: Entry, event: Event) {
    match event
    case Look(x, now, _, admission) => Used(c, event) == {key} ==> Current(c.settings, x.0, e, now) && admission != Denied
    case Store(_, _, _, _) => Used(c, event) != {key}
    case Forget(client) => !(client + ":" <= key)
  }

  lemma {:induction false} WithoutJoin(a: seq<Slot>, b: seq<Slot>, key: string)
    ensures Without(a + b, key) == Without(a, key) + Without(b, key)
  {
    if a == [] {
      assert a + b == b;
    } else {
      assert (a + b)[1..] == a[1..] + b;
      WithoutJoin(a[1..], b, key);
    }
  }

  lemma {:induction false} NotOfJoin(a: seq<Slot>, b: seq<Slot>, prefix: string)
    ensures NotOf(a + b, prefix) == NotOf(a, prefix) + NotOf(b, prefix)
  {
    if a == [] {
      assert a + b == b;
    } else {
      assert (a + b)[1..] == a[1..] + b;
      NotOfJoin(a[1..], b, prefix);
    }
  }

  lemma {:induction false} WithoutOne(slot: Slot, key: string)
    ensures Without([slot], key) == if slot.0 == key then [] else [slot]
  {
    assert [slot][1..] == [];
  }

  lemma {:induction false} NotOfOne(slot: Slot, prefix: string)
    ensures NotOf([slot], prefix) == if prefix <= slot.0 then [] else [slot]
  {
    assert [slot][1..] == [];
  }

  lemma {:induction false} WithoutAround(slots: seq<Slot>, a: seq<Slot>, key: string, e: Entry, b: seq<Slot>, other: string)
    requires slots == a + [(key, e)] + b && other != key
    ensures Without(slots, other) == Without(a, other) + [(key, e)] + Without(b, other)
  {
    hide Without;
    WithoutJoin(a + [(key, e)], b, other);
    WithoutJoin(a, [(key, e)], other);
    WithoutOne((key, e), other);
  }

  /** Another key used: it stands behind ours, and only as many as there are others do. */
  lemma {:induction false} UsedBehind(slots: seq<Slot>, key: string, e: Entry, others: set<string>, other: string, f: Entry)
    requires Recent(slots, key, e, others) && other != key
    ensures Recent(Without(slots, other) + [(other, f)], key, e, others + {other})
  {
    var a, b :| slots == a + [(key, e)] + b && forall slot <- b :: slot.0 in others;
    WithoutAround(slots, a, key, e, b, other);
    var c := Without(b, other) + [(other, f)];
    assert Without(slots, other) + [(other, f)] == Without(a, other) + [(key, e)] + c;
  }

  lemma {:induction false} BehindFit(b: seq<Slot>, others: set<string>)
    requires Unique(Keys(b)) && forall slot <- b :: slot.0 in others
    ensures |b| <= |others|
  {
    var keys := Keys(b);
    CountsDistinct(keys);
    forall key | key in keys ensures key in others {
      KeyIsASlot(b, key);
    }
    SubsetSize((set key | key in keys), others);
  }

  lemma {:induction false} BehindUnique(a: seq<Slot>, slot: Slot, b: seq<Slot>)
    requires Unique(Keys(a + [slot] + b))
    ensures Unique(Keys(b))
  {
    var all := a + [slot] + b;
    forall i, j | 0 <= i < j < |b| ensures Keys(b)[i] != Keys(b)[j] {
      assert Keys(all)[|a| + 1 + i] == Keys(b)[i] && Keys(all)[|a| + 1 + j] == Keys(b)[j];
    }
  }

  /** While fewer other keys than the bound were used since, trimming does not reach ours. */
  lemma {:induction false} TrimSpares(slots: seq<Slot>, key: string, e: Entry, others: set<string>, n: nat)
    requires Recent(slots, key, e, others) && Unique(Keys(slots)) && |others| < n
    ensures Recent(LastOf(slots, n), key, e, others)
  {
    var a, b :| slots == a + [(key, e)] + b && forall slot <- b :: slot.0 in others;
    BehindUnique(a, (key, e), b);
    BehindFit(b, others);
    if |slots| > n {
      var dropped := |slots| - n;
      assert LastOf(slots, n) == a[dropped..] + [(key, e)] + b;
    }
  }

  lemma {:induction false} RecentIsFound(slots: seq<Slot>, key: string, e: Entry, others: set<string>)
    requires Recent(slots, key, e, others) && Unique(Keys(slots))
    ensures Find(slots, key) == Some(e)
  {
    FoundOnce(slots, key, e);
  }

  lemma {:induction false} MoreOthers(slots: seq<Slot>, key: string, e: Entry, others: set<string>, more: set<string>)
    requires Recent(slots, key, e, others) && others <= more
    ensures Recent(slots, key, e, more)
  {
    var a, b :| slots == a + [(key, e)] + b && forall slot <- b :: slot.0 in others;
    assert slots == a + [(key, e)] + b && forall slot <- b :: slot.0 in more;
  }

  lemma {:induction false} OwnLookSpares(c: Setup, seen: set<Pair>, slots: seq<Slot>, key: string, e: Entry, x: Pair, now: Time, admission: Admission)
    requires Sound(c.judge, c.digest, seen, slots) && x in seen && Find(slots, key) == Some(e)
    requires KeyOf(c, x) == Some(key) && Current(c.settings, x.0, e, now) && admission != Denied
    ensures var left := LookedUp(c, slots, key, x, now, admission).1;
            left == slots || left == Without(slots, key) + [(key, e)]
  {
    hide ReportOf, Acceptable, Sound, Earned, Cacheable, KeyText, Current;
    KeyIsText(c, Look(x, now, false, admission));
    StoredIsEarned(c.judge, c.digest, seen, slots, x, e);
    EarnedMeans(c.judge, x.0, x.1, e);
  }

  lemma {:induction false} OtherLook(c: Setup, slots: seq<Slot>, used: string, x: Pair, now: Time, admission: Admission)
    ensures var left := LookedUp(c, slots, used, x, now, admission).1;
            || left == slots || left == Without(slots, used)
            || (Find(slots, used).Some? && left == Without(slots, used) + [(used, Find(slots, used).value)])
  {
    hide ReportOf, Acceptable, Current;
  }

  lemma {:induction false} LookSpares(c: Setup, seen: set<Pair>, slots: seq<Slot>, key: string, e: Entry, others: set<string>,
                                      x: Pair, now: Time, admission: Admission)
    requires Recent(slots, key, e, others) && Unique(Keys(slots)) && Sound(c.judge, c.digest, seen, slots) && x in seen
    requires KeyOf(c, x).Some? && Spares(c, key, e, Look(x, now, false, admission)) && key !in others
    ensures Recent(LookedUp(c, slots, KeyOf(c, x).value, x, now, admission).1, key, e, others + ({KeyOf(c, x).value} - {key}))
  {
    hide ReportOf, Acceptable, Sound, Earned, Cacheable, KeyText, Current, Unique, LookedUp, Recent, Find, KeyOf, Without;
    var used := KeyOf(c, x).value;
    var more := others + ({used} - {key});
    RecentIsFound(slots, key, e, others);
    MoreOthers(slots, key, e, others, more);
    if used == key {
      assert Used(c, Look(x, now, false, admission)) == {key};
      OwnLookSpares(c, seen, slots, key, e, x, now, admission);
      MostRecent(Without(slots, key), key, e, more);
    } else {
      OtherLook(c, slots, used, x, now, admission);
      WithoutSpares(slots, key, e, more, used);
      if Find(slots, used).Some? {
        UsedBehind(slots, key, e, others, used, Find(slots, used).value);
      }
      assert others + {used} == more;
    }
  }

  lemma {:induction false} MostRecent(slots: seq<Slot>, key: string, e: Entry, others: set<string>)
    ensures Recent(slots + [(key, e)], key, e, others)
  {
    assert slots + [(key, e)] == slots + [(key, e)] + [];
  }

  lemma {:induction false} WithoutSpares(slots: seq<Slot>, key: string, e: Entry, others: set<string>, other: string)
    requires Recent(slots, key, e, others) && other != key
    ensures Recent(Without(slots, other), key, e, others)
  {
    var a, b :| slots == a + [(key, e)] + b && forall slot <- b :: slot.0 in others;
    WithoutAround(slots, a, key, e, b, other);
  }

  /** The key itself is not behind itself. */
  lemma {:induction false} KeyBehind(slots: seq<Slot>, key: string, e: Entry, others: set<string>)
    requires Recent(slots, key, e, others) && Unique(Keys(slots))
    ensures Recent(slots, key, e, others - {key})
  {
    var a, b :| slots == a + [(key, e)] + b && forall slot <- b :: slot.0 in others;
    forall slot | slot in b ensures slot.0 != key {
      var k :| 0 <= k < |b| && b[k] == slot;
      assert Keys(slots)[|a|] == key && Keys(slots)[|a| + 1 + k] == slot.0;
    }
    assert slots == a + [(key, e)] + b && forall slot <- b :: slot.0 in others - {key};
  }

  lemma {:induction false} ForgetSpares(slots: seq<Slot>, key: string, e: Entry, others: set<string>, prefix: string)
    requires Recent(slots, key, e, others) && !(prefix <= key)
    ensures Recent(NotOf(slots, prefix), key, e, others)
  {
    hide NotOf;
    var a, b :| slots == a + [(key, e)] + b && forall slot <- b :: slot.0 in others;
    NotOfJoin(a + [(key, e)], b, prefix);
    NotOfJoin(a, [(key, e)], prefix);
    NotOfOne((key, e), prefix);
    assert NotOf(slots, prefix) == NotOf(a, prefix) + [(key, e)] + NotOf(b, prefix);
  }

  lemma {:induction false} StoreSpares(c: Setup, slots: seq<Slot>, key: string, e: Entry, others: set<string>, used: string, x: Pair,
                                       result: Result, now: Time)
    requires Recent(slots, key, e, others) && WellKept(c, slots) && used != key && |others + {used}| < c.settings.maxEntries
    ensures Recent(Stored(c.settings, slots, used, x.0, result, now), key, e, others + {used})
  {
    hide Recent, Unique, Ttl, Without, LastOf;
    var entry := Entry(result, now, now + Ttl(c.settings, x.0));
    UsedBehind(slots, key, e, others, used, entry);
    WithoutKeepsUnique(slots, used);
    Append(Without(slots, used), (used, entry));
    TrimSpares(Without(slots, used) + [(used, entry)], key, e, others + {used}, c.settings.maxEntries);
  }

  lemma {:induction false} StepSpares(c: Setup, seen: set<Pair>, slots: seq<Slot>, key: string, e: Entry, others: set<string>, event: Event)
    requires Recent(slots, key, e, others) && WellKept(c, slots) && Sound(c.judge, c.digest, seen, slots) && InPlay(c, seen, event)
    requires Spares(c, key, e, event) && |(others + Used(c, event)) - {key}| < c.settings.maxEntries
    ensures Recent(After(c, slots, event), key, e, (others + Used(c, event)) - {key})
  {
    hide Recent, Sound, LookedUp, Stored, Unique, NotOf, KeyOf, Current, FromSolve;
    KeyBehind(slots, key, e, others);
    var apart := others - {key};
    if !Effective(c, event) || event.Forget? {
      assert (others + Used(c, event)) - {key} == apart;
      if event.Forget? {
        ForgetSpares(slots, key, e, apart, event.client + ":");
      }
    } else {
      var used := KeyOf(c, event.pair).value;
      assert (others + Used(c, event)) - {key} == apart + ({used} - {key});
      match event
      case Look(x, now, _, admission) =>
        LookSpares(c, seen, slots, key, e, apart, x, now, admission);
      case Store(x, result, now, _) =>
        assert {used} - {key} == {used};
        StoreSpares(c, slots, key, e, apart, used, x, result, now);
    }
  }

  function AllUsed(c: Setup, es: seq<Event>): set<string> {
    if es == [] then {} else Used(c, es[0]) + AllUsed(c, es[1..])
  }

  ghost predicate AllSpare(c: Setup, key: string, e: Entry, es: seq<Event>) {
    forall k | 0 <= k < |es| :: Spares(c, key, e, es[k])
  }

  /**
   Least recently used is what goes: an entry stays, whatever else is looked up and stored,
   while fewer other keys than the bound have been used, unless it is looked up when it is
   out of date or its route denied, replaced, or cleared.
   */
  lemma {:induction false} EntriesSurvive(c: Setup, seen: set<Pair>, slots: seq<Slot>, key: string, e: Entry, others: set<string>, es: seq<Event>)
    requires TellsApart(c.digest, seen) && NeverATick(c.judge.parse) && AllInPlay(c, seen, es)
    requires Sound(c.judge, c.digest, seen, slots) && WellKept(c, slots) && Recent(slots, key, e, others)
    requires AllSpare(c, key, e, es) && |(others + AllUsed(c, es)) - {key}| < c.settings.maxEntries
    ensures Find(Run(c, slots, es), key) == Some(e)
    decreases |es|
  {
    hide Sound, TellsApart, NeverATick, InPlay, After, Recent, Used, Spares, Find;
    if es == [] {
      RecentIsFound(slots, key, e, others);
    } else {
      assert InPlay(c, seen, es[0]) && Spares(c, key, e, es[0]);
      var more := (others + Used(c, es[0])) - {key};
      SubsetSize(more, (others + AllUsed(c, es)) - {key});
      StepSpares(c, seen, slots, key, e, others, es[0]);
      StepIsSound(c, seen, slots, es[0]);
      StepIsWellKept(c, slots, es[0]);
      assert (more + AllUsed(c, es[1..])) - {key} == (others + AllUsed(c, es)) - {key};
      EntriesSurvive(c, seen, After(c, slots, es[0]), key, e, more, es[1..]);
    }
  }

  /**
   A stored answer is served on every look-up within its time: store it, let the run go on
   as `EntriesSurvive` allows, and an admitted look-up of the same request that finds it
   current gets exactly the stored text.
   */
  lemma {:induction false} StoredAnswersAreServed(c: Setup, seen: set<Pair>, before: seq<Event>, x: Pair, result: Result, at: Time,
                                                  after: seq<Event>, now: Time)
    requires TellsApart(c.digest, seen) && NeverATick(c.judge.parse)
    requires AllInPlay(c, seen, before) && AllInPlay(c, seen, after) && InPlay(c, seen, Store(x, result, at, false))
    requires Effective(c, Store(x, result, at, false)) && c.settings.maxEntries > 0
    requires var key := KeyOf(c, x).value;
             var e := Entry(result, at, at + Ttl(c.settings, x.0));
             && AllSpare(c, key, e, after) && |AllUsed(c, after) - {key}| < c.settings.maxEntries
             && Current(c.settings, x.0, e, now)
    ensures var slots := Run(c, After(c, Run(c, [], before), Store(x, result, at, false)), after);
            var hit := Answer(c, slots, x, now, false, Admitted);
            hit.Some? && Some(hit.value.output) == result.output && Acceptable(hit.value.quality, x.1)
  {
    hide Sound, TellsApart, NeverATick, InPlay, Current, Ttl, Acceptable, Answer, Find, LookedUp;
    var key, store := KeyOf(c, x).value, Store(x, result, at, false);
    var e := Entry(result, at, at + Ttl(c.settings, x.0));
    EmptyIsSound(c, seen);
    RunIsSound(c, seen, [], before);
    var slots := Run(c, [], before);
    StepIsSound(c, seen, slots, store);
    StepIsWellKept(c, slots, store);
    JustStored(c, slots, x, result, at);
    var stored := After(c, slots, store);
    assert ({} + AllUsed(c, after)) - {key} == AllUsed(c, after) - {key};
    EntriesSurvive(c, seen, stored, key, e, {}, after);
    RunIsSound(c, seen, stored, after);
    StoredInPlay(c, seen, x, result, at);
    HitExactlyWhenCurrent(c, seen, Run(c, stored, after), x, now, Admitted);
  }

  /** So what a solve accepts of a cacheable request is what the next look-up within its time gets. */
  lemma {:induction false} AcceptedAnswersAreServed(judge: Judge, settings: Settings, x: Pair, response: Response, quality: Report, at: Time, now: Time)
    returns (c: Setup, result: Result)
    requires NeverATick(judge.parse) && Cacheable(settings.enabled, x.0, x.1) && x.0.mode != Refresh && settings.maxEntries > 0
    requires Acceptable(ReportOf(judge, x.0, x.1, response, NotRequested), x.1)
    requires at <= now < at + Ttl(settings, x.0)
    ensures c.judge == judge && c.settings == settings && TellsApart(c.digest, {x})
    ensures FromSolve(judge, x.0, x.1, result)
    ensures var hit := Answer(c, After(c, [], Store(x, result, at, false)), x, now, false, Admitted);
            hit.Some? && hit.value.output == Output(judge, x.0, response.text) && Acceptable(hit.value.quality, x.1)
  {
    hide NeverATick, TellsApart, Cacheable, Acceptable, ReportOf, Output, Ttl, Answer, After, KeyText;
    var digest := SomeDigestTellsApart({x});
    c := Setup(judge, digest, settings);
    result := Result(true, false, true, Some(Output(judge, x.0, response.text)), Some(quality), "", "");
    StoredAnswersAreServed(c, {x}, [], x, result, at, [], now);
  }

  lemma {:induction false} StoredInPlay(c: Setup, seen: set<Pair>, x: Pair, result: Result, at: Time)
    requires InPlay(c, seen, Store(x, result, at, false))
    ensures x in seen
  {
  }

  lemma {:induction false} EmptyIsSound(c: Setup, seen: set<Pair>)
    ensures Sound(c.judge, c.digest, seen, []) && WellKept(c, [])
  {
  }

  lemma {:induction false} JustStored(c: Setup, slots: seq<Slot>, x: Pair, result: Result, at: Time)
    requires Effective(c, Store(x, result, at, false)) && c.settings.maxEntries > 0 && WellKept(c, slots)
    ensures Recent(After(c, slots, Store(x, result, at, false)), KeyOf(c, x).value, Entry(result, at, at + Ttl(c.settings, x.0)), {})
  {
    hide Unique, Ttl, Recent, Without, LastOf, KeyOf;
    var key := KeyOf(c, x).value;
    var e := Entry(result, at, at + Ttl(c.settings, x.0));
    WithoutKeepsUnique(slots, key);
    Append(Without(slots, key), (key, e));
    MostRecent(Without(slots, key), key, e, {});
    TrimSpares(Without(slots, key) + [(key, e)], key, e, {}, c.settings.maxEntries);
  }

  // ---------- whose entries are cleared ----------

  /**
   Clearing a client removes an entry exactly when the entry's client is that one, or has a
   name that continues with a colon: those are cleared with it.
   */
  lemma {:induction false} ClearTakes(digest: Digest, request: Request, profile: Profile, client: string)
    requires ':' !in digest(Blanked(request), profile)
    ensures client + ":" <= KeyText(digest, request, profile) <==> request.client == client || client + ":" <= request.client
  {
    var d := digest(Blanked(request), profile);
    var prefix, key := client + ":", KeyText(digest, request, profile);
    assert key == request.client + ":" + d;
    assert forall k | 0 <= k < |d| :: key[|request.client| + 1 + k] == d[k] && d[k] != ':';
    assert prefix[|client|] == ':';
    if prefix <= key {
      assert key[|client|] == ':';
      assert |client| <= |request.client|;
      if |client| == |request.client| {
        assert client == key[..|client|] == request.client;
      } else {
        assert prefix == key[..|prefix|] == request.client[..|prefix|];
      }
    }
  }

  /** A client named "a:b" loses its entries when "a" clears its own. */
  lemma {:induction false} AnotherClientIsCleared(digest: Digest, request: Request, profile: Profile)
    requires ':' !in digest(Blanked(request), profile) && request.client == "a:b"
    ensures "a" + ":" <= KeyText(digest, request, profile)
  {
    ClearTakes(digest, request, profile, "a");
    assert "a" + ":" == "a:b"[..2];
  }

  /** A look-up that is answered makes its entry the most recently used. */
  lemma {:induction false} HitsRenew(c: Setup, slots: seq<Slot>, x: Pair, now: Time, admission: Admission)
    requires Answer(c, slots, x, now, false, admission).Some?
    ensures KeyOf(c, x).Some? && Find(slots, KeyOf(c, x).value).Some?
    ensures Recent(After(c, slots, Look(x, now, false, admission)), KeyOf(c, x).value, Find(slots, KeyOf(c, x).value).value, {})
  {
    hide Without, ReportOf, Acceptable, Current, WithProvenance;
    var key := KeyOf(c, x).value;
    var e := Find(slots, key).value;
    var after := After(c, slots, Look(x, now, false, admission));
    assert after == Without(slots, key) + [(key, e)] + [];
  }

  // ---------- what is cached, and for how long ----------

  /**
   A request that asks to bypass the cache, for fresh or grounded or cross-checked answers, that
   brings evidence or a source policy or stakes much, or whose answer no fixed value checks,
   neither reads nor writes the cache; any other accepted answer is stored.
   */
  lemma {:induction false} WhatIsCached(c: Setup, slots: seq<Slot>, x: Pair, result: Result, now: Time, admission: Admission)
    ensures var plain :=
              && c.settings.enabled && x.0.mode != Bypass && !x.0.freshness && !x.1.requiresGrounding && !x.0.crossCheck && !x.0.highImpact
              && !x.0.sourcePolicy && x.0.evidence == map[]
              && x.0.validation.Some? && !x.0.validation.value.GroundedJson? && !x.0.validation.value.GroundedClaims?
              && !x.0.validation.value.PythonFunction?;
            && (!plain ==> Answer(c, slots, x, now, false, admission) == None
                           && After(c, slots, Store(x, result, now, false)) == After(c, slots, Look(x, now, false, admission)) == slots)
            && (plain && result.accepted && !result.cacheHit && result.primary && c.settings.maxEntries > 0 ==>
                  exists k, e :: 0 <= k < |After(c, slots, Store(x, result, now, false))|
                                 && After(c, slots, Store(x, result, now, false))[k] == (x.0.client + ":" + DigestOf(c.digest, x), e)
                                 && e.result == result)
  {
    hide Without, LookedUp, Ttl;
    var after := After(c, slots, Store(x, result, now, false));
    if KeyOf(c, x).Some? && result.accepted && !result.cacheHit && result.primary && c.settings.maxEntries > 0 {
      assert after != [] && after[|after| - 1] == (KeyOf(c, x).value, Entry(result, now, now + Ttl(c.settings, x.0)));
    }
  }

  /**
   How long a stored answer answers: not for a request to refresh, not before it was stored,
   and no longer than the cache's own time, the time its request asked for and the time the
   asking request asks for.
   */
  lemma {:induction false} HowLongItLasts(settings: Settings, stored: Request, asking: Request, result: Result, at: Time, now: Time)
    ensures Current(settings, asking, Entry(result, at, at + Ttl(settings, stored)), now) <==>
              && asking.mode != Refresh && at <= now < at + settings.ttl as real
              && (stored.ttl.Some? && stored.ttl.value > 0 ==> now < at + stored.ttl.value as real)
              && (asking.ttl.Some? && asking.ttl.value > 0 ==> now < at + asking.ttl.value as real)
  {
  }
}

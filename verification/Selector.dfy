/**
 The routes a solve may try, best first (fair/embedded/selector.py).

 Admission, adapters, availability, the measured scores and what is left of an allowance
 are parameters of a call.
 */
module Selector {
  import opened Options
  import opened Lists

  datatype Model = Model(id: string, active: bool, capabilities: set<string>, contextWindow: nat, maxOutput: Option<nat>)

  /** `maxClass` is the rank of the most private data the provider may see. */
  datatype Provider = Provider(id: string, maxClass: nat, requestLimit: Option<nat>, models: seq<Model>)

  datatype Request = Request(privacy: nat, outputFloor: nat)

  datatype Task = Task(capabilities: set<string>, contextEstimate: nat)

  datatype Weights = Weights(quality: real, quota: real, reliability: real)

  datatype World = World(
    admitted: string -> bool,
    adapted: string -> bool,
    available: string -> bool,
    unbenched: (string, string) -> bool,
    eligible: (string, string) -> bool,
    quality: (string, string) -> real,
    reliability: (string, string) -> real,
    remaining: string -> int)

  datatype Candidate = Candidate(score: real, provider: string, model: string)

  // ---------- which routes, and their scores ----------

  predicate ProviderFits(w: World, request: Request, p: Provider) {
    w.admitted(p.id) && w.adapted(p.id) && w.available(p.id) && request.privacy <= p.maxClass
  }

  predicate ModelFits(w: World, request: Request, task: Task, tried: set<(string, string)>, p: Provider, m: Model) {
    && m.active && (p.id, m.id) !in tried && w.unbenched(p.id, m.id)
    && task.capabilities <= m.capabilities && task.contextEstimate <= m.contextWindow
    && (m.maxOutput.Some? ==> request.outputFloor <= m.maxOutput.value)
    && w.eligible(p.id, m.id)
  }

  /** What is left of the allowance, as a share; a half where there is no limit to share. */
  function Headroom(w: World, p: Provider): real {
    if p.requestLimit.Some? && p.requestLimit.value != 0 then w.remaining(p.id) as real / p.requestLimit.value as real else 0.5
  }

  function Scored(w: World, weights: Weights, p: Provider, m: Model): Candidate {
    Candidate(weights.quality * w.quality(p.id, m.id) + weights.quota * Headroom(w, p) + weights.reliability * w.reliability(p.id, m.id),
              p.id, m.id)
  }

  function OfModels(w: World, weights: Weights, request: Request, task: Task, tried: set<(string, string)>, p: Provider, models: seq<Model>): seq<Candidate> {
    if models == [] then []
    else
      var last := models[|models| - 1];
      OfModels(w, weights, request, task, tried, p, models[..|models| - 1])
      + if ModelFits(w, request, task, tried, p, last) then [Scored(w, weights, p, last)] else []
  }

  function OfProviders(w: World, weights: Weights, request: Request, task: Task, tried: set<(string, string)>, ps: seq<Provider>): seq<Candidate> {
    if ps == [] then []
    else
      var last := ps[|ps| - 1];
      OfProviders(w, weights, request, task, tried, ps[..|ps| - 1])
      + if ProviderFits(w, request, last) then OfModels(w, weights, request, task, tried, last, last.models) else []
  }

  // ---------- the order ----------

  /** The sort key: the higher score first, then provider and model by name. */
  predicate Before(a: Candidate, b: Candidate) {
    || a.score > b.score
    || (a.score == b.score && a.provider != b.provider && TextLe(a.provider, b.provider))
    || (a.score == b.score && a.provider == b.provider && TextLe(a.model, b.model))
  }

  lemma {:induction false} BeforeIsAnOrder()
    ensures TotalOrder(Before)
  {
    hide TextLe;
    forall a, b ensures (Before(a, b) || Before(b, a)) && (Before(a, b) && Before(b, a) ==> a == b) {
      TextTotal(a.provider, b.provider);
      TextTotal(a.model, b.model);
    }
    forall a, b, c | Before(a, b) && Before(b, c) ensures Before(a, c) {
      BeforeTransitive(a, b, c);
    }
  }

  lemma {:induction false} BeforeTransitive(a: Candidate, b: Candidate, c: Candidate)
    requires Before(a, b) && Before(b, c)
    ensures Before(a, c)
  {
    hide TextLe;
    if a.score == b.score == c.score {
      if a.provider == b.provider == c.provider {
        TextTransitive(a.model, b.model, c.model);
      } else if a.provider != b.provider && b.provider != c.provider {
        TextTransitive(a.provider, b.provider, c.provider);
        TextTotal(a.provider, b.provider);
      }
    }
  }

  // ---------- the selector ----------

  /** Collect what fits, score it, and sort. */
  method Candidates(w: World, weights: Weights, request: Request, task: Task, tried: set<(string, string)>, registry: seq<Provider>)
    returns (sorted: seq<Candidate>)
    ensures sorted == Sort(OfProviders(w, weights, request, task, tried, registry), Before)
  {
    hide ProviderFits, ModelFits, Scored, Sort;
    var candidates := [];
    for i := 0 to |registry|
      invariant candidates == OfProviders(w, weights, request, task, tried, registry[..i])
    {
      var p := registry[i];
      assert registry[..i + 1][..i] == registry[..i];
      if !ProviderFits(w, request, p) {
        continue;
      }
      ghost var before := candidates;
      for k := 0 to |p.models|
        invariant candidates == before + OfModels(w, weights, request, task, tried, p, p.models[..k])
      {
        assert p.models[..k + 1][..k] == p.models[..k];
        if ModelFits(w, request, task, tried, p, p.models[k]) {
          candidates := candidates + [Scored(w, weights, p, p.models[k])];
        }
      }
      assert p.models[..|p.models|] == p.models;
    }
    assert registry[..|registry|] == registry;
    sorted := Sort(candidates, Before);
  }

  /** A registered route that fits, with its score. */
  ghost predicate Fits(w: World, weights: Weights, request: Request, task: Task, tried: set<(string, string)>, registry: seq<Provider>, c: Candidate) {
    exists i, k :: 0 <= i < |registry| && 0 <= k < |registry[i].models| && ProviderFits(w, request, registry[i])
                   && ModelFits(w, request, task, tried, registry[i], registry[i].models[k]) && c == Scored(w, weights, registry[i], registry[i].models[k])
  }

  lemma {:induction false} ModelsCollected(w: World, weights: Weights, request: Request, task: Task, tried: set<(string, string)>, p: Provider,
                                           models: seq<Model>, c: Candidate)
    ensures c in OfModels(w, weights, request, task, tried, p, models) <==>
              exists k :: 0 <= k < |models| && ModelFits(w, request, task, tried, p, models[k]) && c == Scored(w, weights, p, models[k])
  {
    hide ModelFits, Scored;
    if models != [] {
      ModelsCollected(w, weights, request, task, tried, p, models[..|models| - 1], c);
    }
  }

  lemma {:induction false} FittingIsCollected(w: World, weights: Weights, request: Request, task: Task, tried: set<(string, string)>,
                                              registry: seq<Provider>, c: Candidate)
    ensures c in OfProviders(w, weights, request, task, tried, registry) <==> Fits(w, weights, request, task, tried, registry, c)
  {
    hide ProviderFits, ModelFits, Scored, OfModels;
    if registry != [] {
      var init, last := registry[..|registry| - 1], registry[|registry| - 1];
      FittingIsCollected(w, weights, request, task, tried, init, c);
      ModelsCollected(w, weights, request, task, tried, last, last.models, c);
      assert forall i | 0 <= i < |init| :: init[i] == registry[i];
    }
  }

  /**
   The candidates are exactly the fitting registered routes, each before all with a lower
   score; equal scores go by provider and model name.
   */
  lemma {:induction false} BestFirst(w: World, weights: Weights, request: Request, task: Task, tried: set<(string, string)>, registry: seq<Provider>)
    ensures var all := Sort(OfProviders(w, weights, request, task, tried, registry), Before);
            && (forall c :: c in all <==> Fits(w, weights, request, task, tried, registry, c))
            && Sorted(all, Before) && (forall i, j | 0 <= i < j < |all| :: all[i].score >= all[j].score)
            && (forall c <- all :: (c.provider, c.model) !in tried)
  {
    hide OfProviders, Sort;
    var found := OfProviders(w, weights, request, task, tried, registry);
    var all := Sort(found, Before);
    BeforeIsAnOrder();
    SortSorted(found, Before);
    forall c ensures c in all <==> Fits(w, weights, request, task, tried, registry, c) {
      FittingIsCollected(w, weights, request, task, tried, registry, c);
      assert c in all <==> c in multiset(all);
      assert c in found <==> c in multiset(found);
    }
    forall i, j | 0 <= i < j < |all| ensures all[i].score >= all[j].score {
      assert Before(all[i], all[j]);
    }
  }

  /** The order in which providers are registered does not matter. */
  lemma {:induction false} RegistrationOrderDoesNotMatter(w: World, weights: Weights, request: Request, task: Task, tried: set<(string, string)>,
                                                          a: seq<Provider>, b: seq<Provider>)
    requires multiset(a) == multiset(b)
    ensures Sort(OfProviders(w, weights, request, task, tried, a), Before) == Sort(OfProviders(w, weights, request, task, tried, b), Before)
  {
    hide OfProviders, Sort;
    SameCollected(w, weights, request, task, tried, a, b);
    var x, y := OfProviders(w, weights, request, task, tried, a), OfProviders(w, weights, request, task, tried, b);
    BeforeIsAnOrder();
    SortSorted(x, Before);
    SortSorted(y, Before);
    SortedOnce(Sort(x, Before), Sort(y, Before), Before);
  }

  lemma {:induction false} CollectedApart(w: World, weights: Weights, request: Request, task: Task, tried: set<(string, string)>,
                                          a: seq<Provider>, b: seq<Provider>)
    ensures OfProviders(w, weights, request, task, tried, a + b) ==
              OfProviders(w, weights, request, task, tried, a) + OfProviders(w, weights, request, task, tried, b)
  {
    hide ProviderFits, OfModels;
    if b == [] {
      assert a + b == a;
    } else {
      assert (a + b)[..|a + b| - 1] == a + b[..|b| - 1];
      CollectedApart(w, weights, request, task, tried, a, b[..|b| - 1]);
    }
  }

  lemma {:induction false} MovedToFront(w: World, weights: Weights, request: Request, task: Task, tried: set<(string, string)>,
                                        before: seq<Provider>, p: Provider, after: seq<Provider>)
    ensures multiset(OfProviders(w, weights, request, task, tried, before + [p] + after)) ==
              multiset(OfProviders(w, weights, request, task, tried, [p])) + multiset(OfProviders(w, weights, request, task, tried, before + after))
  {
    hide OfProviders;
    CollectedApart(w, weights, request, task, tried, before + [p], after);
    CollectedApart(w, weights, request, task, tried, before, [p]);
    CollectedApart(w, weights, request, task, tried, before, after);
  }

  lemma {:induction false} Removed<T>(s: seq<T>, k: nat)
    requires k < |s|
    ensures s == s[..k] + [s[k]] + s[k + 1..] && multiset(s[..k] + s[k + 1..]) == multiset(s) - multiset{s[k]}
  {
    assert s == s[..k] + [s[k]] + s[k + 1..];
  }

  lemma {:induction false} TakenOut<T>(a: seq<T>, b: seq<T>) returns (before: seq<T>, after: seq<T>)
    requires a != [] && multiset(a) == multiset(b)
    ensures b == before + [a[0]] + after && multiset(a[1..]) == multiset(before + after)
  {
    assert a[0] in multiset(b);
    var k :| 0 <= k < |b| && b[k] == a[0];
    before, after := b[..k], b[k + 1..];
    Removed(b, k);
    Removed(a, 0);
    assert a[..0] + a[1..] == a[1..];
  }

  lemma {:induction false} SameCollected(w: World, weights: Weights, request: Request, task: Task, tried: set<(string, string)>,
                                         a: seq<Provider>, b: seq<Provider>)
    requires multiset(a) == multiset(b)
    ensures multiset(OfProviders(w, weights, request, task, tried, a)) == multiset(OfProviders(w, weights, request, task, tried, b))
  {
    hide OfProviders;
    if a == [] {
      assert |b| == |multiset(b)| == |multiset(a)|;
      assert b == a;
    } else {
      var before, after := TakenOut(a, b);
      SameCollected(w, weights, request, task, tried, a[1..], before + after);
      MovedToFront(w, weights, request, task, tried, before, a[0], after);
      MovedToFront(w, weights, request, task, tried, [], a[0], a[1..]);
      assert [] + [a[0]] + a[1..] == a && [] + a[1..] == a[1..];
    }
  }

  // ---------- what being a candidate means ----------

  /**
   A route is a candidate if and only if it is registered, its provider is admitted, has an
   adapter, is available and may see data as private as the request's, and its model is active,
   not tried, not benched, eligible, has every capability asked for, and is large enough both ways.
   */
  lemma {:induction false} CandidatesAreFit(w: World, weights: Weights, request: Request, task: Task, tried: set<(string, string)>,
                                            registry: seq<Provider>, provider: string, model: string)
    ensures (exists c :: c in Sort(OfProviders(w, weights, request, task, tried, registry), Before) && c.provider == provider && c.model == model) <==>
              && w.admitted(provider) && w.adapted(provider) && w.available(provider)
              && (provider, model) !in tried && w.unbenched(provider, model) && w.eligible(provider, model)
              && exists p, m :: p in registry && m in p.models && p.id == provider && m.id == model
                   && p.maxClass >= request.privacy && m.active && m.capabilities >= task.capabilities
                   && m.contextWindow >= task.contextEstimate
                   && (m.maxOutput.None? || m.maxOutput.value >= request.outputFloor)
  {
    hide OfProviders, Sort, Scored;
    var all := Sort(OfProviders(w, weights, request, task, tried, registry), Before);
    BestFirst(w, weights, request, task, tried, registry);
    if c :| c in all && c.provider == provider && c.model == model {
      var i, k :| 0 <= i < |registry| && 0 <= k < |registry[i].models| && ProviderFits(w, request, registry[i])
                  && ModelFits(w, request, task, tried, registry[i], registry[i].models[k]) && c == Scored(w, weights, registry[i], registry[i].models[k]);
      NamesKept(w, weights, registry[i], registry[i].models[k]);
      assert registry[i] in registry && registry[i].models[k] in registry[i].models;
    }
    if p, m :| p in registry && m in p.models && p.id == provider && m.id == model && ProviderFits(w, request, p) && ModelFits(w, request, task, tried, p, m) {
      var i :| 0 <= i < |registry| && registry[i] == p;
      var k :| 0 <= k < |p.models| && p.models[k] == m;
      NamesKept(w, weights, p, m);
      assert Fits(w, weights, request, task, tried, registry, Scored(w, weights, p, m));
    }
  }

  lemma {:induction false} NamesKept(w: World, weights: Weights, p: Provider, m: Model)
    ensures Scored(w, weights, p, m).provider == p.id && Scored(w, weights, p, m).model == m.id
  {
  }

  /** Asking for less, in privacy, capabilities, context or output, never costs a candidate. */
  lemma {:induction false} LessKeepsCandidates(w: World, weights: Weights, more: Request, less: Request, harder: Task, easier: Task,
                                               tried: set<(string, string)>, registry: seq<Provider>, c: Candidate)
    requires less.privacy <= more.privacy && less.outputFloor <= more.outputFloor
    requires easier.capabilities <= harder.capabilities && easier.contextEstimate <= harder.contextEstimate
    requires c in Sort(OfProviders(w, weights, more, harder, tried, registry), Before)
    ensures c in Sort(OfProviders(w, weights, less, easier, tried, registry), Before)
  {
    hide OfProviders, Sort, Scored;
    BestFirst(w, weights, more, harder, tried, registry);
    BestFirst(w, weights, less, easier, tried, registry);
    assert Fits(w, weights, more, harder, tried, registry, c);
    assert Fits(w, weights, less, easier, tried, registry, c);
  }

  /** What is left of an allowance, from none of it to all of it; a half where no limit is stated. */
  lemma {:induction false} ShareLeft(w: World, p: Provider)
    ensures p.requestLimit.Some? && p.requestLimit.value > 0 ==>
              Headroom(w, p) * p.requestLimit.value as real == w.remaining(p.id) as real
    ensures p.requestLimit.None? || p.requestLimit.value == 0 ==> Headroom(w, p) + Headroom(w, p) == 1.0
  {
  }

  /** At least as good in all three: quality, what is left, reliability. */
  predicate NoWorse(w: World, p: Provider, m: Model, q: Provider, n: Model) {
    w.quality(p.id, m.id) >= w.quality(q.id, n.id) && Headroom(w, p) >= Headroom(w, q) && w.reliability(p.id, m.id) >= w.reliability(q.id, n.id)
  }

  /** Better in one of the three that carries weight. */
  predicate Better(w: World, weights: Weights, p: Provider, m: Model, q: Provider, n: Model) {
    || (weights.quality > 0.0 && w.quality(p.id, m.id) > w.quality(q.id, n.id))
    || (weights.quota > 0.0 && Headroom(w, p) > Headroom(w, q))
    || (weights.reliability > 0.0 && w.reliability(p.id, m.id) > w.reliability(q.id, n.id))
  }

  lemma {:induction false} Weighted(weight: real, a: real, b: real)
    requires weight >= 0.0 && a >= b
    ensures weight * a >= weight * b
    ensures weight > 0.0 && a > b ==> weight * a > weight * b
  {
    assert weight * a - weight * b == weight * (a - b);
  }

  lemma {:induction false} BetterScoresMore(w: World, weights: Weights, p: Provider, m: Model, q: Provider, n: Model)
    requires weights.quality >= 0.0 && weights.quota >= 0.0 && weights.reliability >= 0.0
    requires NoWorse(w, p, m, q, n) && Better(w, weights, p, m, q, n)
    ensures Scored(w, weights, p, m).score > Scored(w, weights, q, n).score
  {
    hide Headroom;
    Weighted(weights.quality, w.quality(p.id, m.id), w.quality(q.id, n.id));
    Weighted(weights.quota, Headroom(w, p), Headroom(w, q));
    Weighted(weights.reliability, w.reliability(p.id, m.id), w.reliability(q.id, n.id));
  }

  /** With weights that are not negative, a route no worse in anything and better in something that counts comes first. */
  lemma {:induction false} BetterComesFirst(w: World, weights: Weights, request: Request, task: Task, tried: set<(string, string)>,
                                            registry: seq<Provider>, p: Provider, m: Model, q: Provider, n: Model, i: nat, j: nat)
    requires weights.quality >= 0.0 && weights.quota >= 0.0 && weights.reliability >= 0.0
    requires NoWorse(w, p, m, q, n) && Better(w, weights, p, m, q, n)
    requires var all := Sort(OfProviders(w, weights, request, task, tried, registry), Before);
             i < |all| && j < |all| && all[i] == Scored(w, weights, p, m) && all[j] == Scored(w, weights, q, n)
    ensures i < j
  {
    hide OfProviders, Sort, Scored, NoWorse, Better, Fits;
    BestFirst(w, weights, request, task, tried, registry);
    BetterScoresMore(w, weights, p, m, q, n);
  }
}

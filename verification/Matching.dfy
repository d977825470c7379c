/**
 The corroboration count: the size of a maximum matching between origin groups and
 content hashes, found by augmenting paths (fair/quality/source_reviews.py).

 `Matcher.Augment` is the recursive search and `IndependentCount` the whole function.
 The proof that no matching is larger keeps the union of the digests seen by failed
 searches (`dead`): it is fully assigned, closed under neighbours of its owners, and no
 later search changes it.  Those digests and the remaining owners cover every edge.
 */
module Matching {
  import opened Lists

  type Origin = string
  type Digest = string
  type Graph = map<Origin, set<Digest>>
  type Assignment = map<Digest, Origin>

  datatype Review = Review(originGroup: Origin, contentHash: Digest)

  // ---------- what a matching is ----------

  /** A pairing uses only (origin, hash) pairs that some review carries. */
  ghost predicate PairsReviewed(reviews: seq<Review>, m: Assignment) {
    forall d <- m :: Review(m[d], d) in reviews
  }

  /** No origin is used twice; a map already uses each hash once. */
  ghost predicate Injective(m: Assignment) {
    forall d, e | d in m && e in m && m[d] == m[e] :: d == e
  }

  ghost predicate IsMatching(reviews: seq<Review>, m: Assignment) {
    PairsReviewed(reviews, m) && Injective(m)
  }

  // ---------- the search state ----------

  ghost predicate Edges(graph: Graph, a: Assignment) {
    forall d <- a :: a[d] in graph && d in graph[a[d]]
  }

  /** `o` holds some hash outside `seen`. */
  ghost predicate Owns(a: Assignment, seen: set<Digest>, o: Origin) {
    exists d :: d in a && d !in seen && a[d] == o
  }

  ghost predicate InjectiveOutside(a: Assignment, seen: set<Digest>) {
    forall d, e | d in a && e in a && d !in seen && e !in seen && a[d] == a[e] :: d == e
  }

  /** What a set of exhausted digests looks like: all owned, and owners lead nowhere else. */
  ghost predicate Dead(graph: Graph, a: Assignment, dead: set<Digest>) {
    forall d <- dead :: d in a && a[d] in graph && graph[a[d]] <= dead
  }

  /** One hash more is owned and all owned hashes are the owners' own. */
  ghost predicate OneMore(graph: Graph, a: Assignment, b: Assignment) {
    a.Keys <= b.Keys && |b| == |a| + 1 && Edges(graph, b)
  }

  /** No hash in `seen` changed hands. */
  ghost predicate Untouched(a: Assignment, b: Assignment, seen: set<Digest>) {
    forall d | d in seen :: (d in a <==> d in b) && (d in a ==> a[d] == b[d])
  }

  /** Outside `seen`, exactly `origin` joined those who own a hash, and still nobody owns two. */
  ghost predicate Joined(a: Assignment, b: Assignment, origin: Origin, seen: set<Digest>) {
    && InjectiveOutside(b, seen)
    && (forall o :: Owns(b, seen, o) <==> o == origin || Owns(a, seen, o))
  }

  ghost predicate Augmented(graph: Graph, a: Assignment, b: Assignment, origin: Origin, seen: set<Digest>) {
    OneMore(graph, a, b) && Untouched(a, b, seen) && Joined(a, b, origin, seen)
  }

  ghost predicate Universe(graph: Graph, all: set<Digest>) {
    forall o <- graph :: graph[o] <= all
  }

  /** Taking `digest`, which nobody owns. */
  lemma {:induction false} TakeFree(graph: Graph, a: Assignment, origin: Origin, seen: set<Digest>, digest: Digest)
    requires Edges(graph, a) && InjectiveOutside(a, seen) && !Owns(a, seen, origin)
    requires origin in graph && digest in graph[origin] && digest !in a && digest !in seen
    ensures Augmented(graph, a, a[digest := origin], origin, seen)
  {
    var b := a[digest := origin];
    assert OneMore(graph, a, b) by {
      assert b.Keys == a.Keys + {digest};
      assert |b.Keys| == |a.Keys| + 1;
    }
    TakeFreeJoins(a, origin, seen, digest);
  }

  lemma {:induction false} TakeFreeJoins(a: Assignment, origin: Origin, seen: set<Digest>, digest: Digest)
    requires InjectiveOutside(a, seen) && !Owns(a, seen, origin) && digest !in a && digest !in seen
    ensures Joined(a, a[digest := origin], origin, seen)
  {
    var b := a[digest := origin];
    forall o ensures Owns(b, seen, o) <==> o == origin || Owns(a, seen, o) {
      if o == origin {
        assert b[digest] == o;
      } else if Owns(a, seen, o) {
        var d :| d in a && d !in seen && a[d] == o;
        assert b[d] == o;
      }
    }
  }

  /** Taking `digest` from its owner, who has just found another hash beyond `inner`. */
  lemma {:induction false} TakeOwned(graph: Graph, a: Assignment, b: Assignment, origin: Origin, seen: set<Digest>,
                  inner: set<Digest>, digest: Digest)
    requires Edges(graph, a) && InjectiveOutside(a, seen) && !Owns(a, seen, origin)
    requires origin in graph && digest in graph[origin] && digest in a && digest !in seen
    requires seen + {digest} <= inner
    requires Augmented(graph, a, b, a[digest], inner)
    ensures Augmented(graph, a, b[digest := origin], origin, seen)
  {
    var c := b[digest := origin];
    assert OneMore(graph, a, c) by {
      assert c.Keys == b.Keys;
      assert |c| == |c.Keys| == |b.Keys| == |b|;
    }
    TakeOwnedApart(a, b, origin, seen, inner, digest);
    forall o ensures Owns(c, seen, o) <==> o == origin || Owns(a, seen, o) {
      TakeOwnedOwners(a, b, origin, seen, inner, digest, o);
    }
  }

  lemma {:induction false} TakeOwnedApart(a: Assignment, b: Assignment, origin: Origin, seen: set<Digest>, inner: set<Digest>, digest: Digest)
    requires InjectiveOutside(a, seen) && !Owns(a, seen, origin)
    requires digest in a && digest in b && digest !in seen && seen + {digest} <= inner
    requires Untouched(a, b, inner) && Joined(a, b, a[digest], inner)
    ensures InjectiveOutside(b[digest := origin], seen)
  {
    var c := b[digest := origin];
    forall d | d in c && d !in seen && d != digest ensures c[d] != origin {
      KeptOwner(a, b, seen, inner, digest, d);
    }
    forall d, e | d in c && e in c && d !in seen && e !in seen && c[d] == c[e] ensures d == e {
      if d != digest && e != digest {
        KeptApart(a, b, seen, inner, digest, d, e);
      }
    }
  }

  lemma {:induction false} TakeOwnedOwners(a: Assignment, b: Assignment, origin: Origin, seen: set<Digest>, inner: set<Digest>,
                        digest: Digest, o: Origin)
    requires digest in a && digest in b && digest !in seen && seen + {digest} <= inner
    requires Untouched(a, b, inner) && Joined(a, b, a[digest], inner)
    ensures Owns(b[digest := origin], seen, o) <==> o == origin || Owns(a, seen, o)
  {
    var c := b[digest := origin];
    if o == origin {
      assert c[digest] == o;
    } else {
      if Owns(a, seen, o) {
        var d :| d in a && d !in seen && a[d] == o;
        if d == digest || d !in inner {
          assert d !in inner ==> Owns(a, inner, o);
          assert Owns(b, inner, o);
          var e :| e in b && e !in inner && b[e] == o;
          assert c[e] == o;
        } else {
          assert c[d] == o;
        }
      }
      if Owns(c, seen, o) {
        var d :| d in c && d !in seen && c[d] == o;
        KeptOwner(a, b, seen, inner, digest, d);
      }
    }
  }

  /** After the inner search every other hash outside `seen` still belongs to a former owner. */
  lemma {:induction false} KeptOwner(a: Assignment, b: Assignment, seen: set<Digest>, inner: set<Digest>, digest: Digest, d: Digest)
    requires digest in a && digest !in seen && seen + {digest} <= inner
    requires Untouched(a, b, inner) && Joined(a, b, a[digest], inner)
    requires d in b && d !in seen && d != digest
    ensures Owns(a, seen, b[d])
  {
    if d in inner {
      assert a[d] == b[d];
    } else {
      assert Owns(b, inner, b[d]);
    }
  }

  /** After the inner search two hashes other than `digest` never share an owner. */
  lemma {:induction false} KeptApart(a: Assignment, b: Assignment, seen: set<Digest>, inner: set<Digest>,
                  digest: Digest, d: Digest, e: Digest)
    requires InjectiveOutside(a, seen) && digest in a && digest !in seen && seen + {digest} <= inner
    requires Untouched(a, b, inner) && Joined(a, b, a[digest], inner)
    requires d in b && e in b && d !in seen && e !in seen && d != digest && e != digest && b[d] == b[e]
    ensures d == e
  {
    assert d !in inner ==> Owns(b, inner, b[d]);
    assert e !in inner ==> Owns(b, inner, b[e]);
  }

  // ---------- counting ----------

  /** Distinct keys with distinct values in `c` need as many values as keys. */
  lemma {:induction false} InjectionFits(m: Assignment, c: set<Origin>)
    requires Injective(m) && (forall d <- m :: m[d] in c)
    ensures |m| <= |c|
    decreases |m|
  {
    if m != map[] {
      var d :| d in m;
      var rest := m - {d};
      assert rest.Keys == m.Keys - {d};
      assert |rest| == |rest.Keys| == |m.Keys| - 1;
      InjectionFits(rest, c - {m[d]});
    }
  }

  /** Distinct keys with distinct values have at least as many values as keys. */
  lemma {:induction false} OwnersCount(a: Assignment, part: set<Digest>)
    requires Injective(a) && part <= a.Keys
    ensures |set d | d in part :: a[d]| == |part|
    decreases |part|
  {
    var owners := set d | d in part :: a[d];
    if part == {} {
      assert owners == {};
    } else {
      var d :| d in part;
      var rest := part - {d};
      OwnersCount(a, rest);
      assert owners == (set e | e in rest :: a[e]) + {a[d]};
    }
  }

  /** Every pair of `m` whose hash is alive uses an origin that owns an alive hash. */
  lemma {:induction false} AliveOwner(reviews: seq<Review>, graph: Graph, a: Assignment, dead: set<Digest>, m: Assignment, d: Digest)
    requires forall r <- reviews :: r.originGroup in graph && r.contentHash in graph[r.originGroup]
    requires Dead(graph, a, dead)
    requires forall o | o in graph && !Owns(a, {}, o) :: graph[o] <= dead
    requires PairsReviewed(reviews, m) && d in m && d !in dead
    ensures exists e :: e in a && e !in dead && a[e] == m[d]
  {
    var o := m[d];
    assert Review(o, d) in reviews;
    assert o in graph && d in graph[o];
    assert Owns(a, {}, o);
    var e :| e in a && e !in {} && a[e] == o;
    assert e !in dead;
  }

  /** The dead digests and the owners of all others meet every edge, so they bound any matching. */
  lemma {:induction false} CoverBounds(reviews: seq<Review>, graph: Graph, a: Assignment, dead: set<Digest>, m: Assignment)
    requires forall r <- reviews :: r.originGroup in graph && r.contentHash in graph[r.originGroup]
    requires Injective(a) && Dead(graph, a, dead)
    requires forall o | o in graph && !Owns(a, {}, o) :: graph[o] <= dead
    requires IsMatching(reviews, m)
    ensures |m| <= |a|
  {
    var inDead := m.Keys * dead;
    var others := m - dead;
    assert m.Keys == inDead + others.Keys && inDead !! others.Keys;
    SubsetSize(inDead, dead);
    var rest := a.Keys - dead;
    assert dead <= a.Keys;
    assert |rest| == |a.Keys| - |dead|;
    var owners := set d | d in rest :: a[d];
    OwnersCount(a, rest);
    forall d | d in others ensures others[d] in owners {
      AliveOwner(reviews, graph, a, dead, m, d);
    }
    InjectionFits(others, owners);
    assert |m| == |m.Keys| == |inDead| + |others.Keys|;
  }

  // ---------- the algorithm ----------

  /** The elements of a set in some order, each once.  The source sorts; no result depends on the order. */
  method Ordered(s: set<string>) returns (q: seq<string>)
    ensures (set x | x in q) == s && Unique(q)
  {
    q := [];
    var left := s;
    while left != {}
      invariant left <= s && (set x | x in q) == s - left && Unique(q)
      decreases left
    {
      var x :| x in left;
      left := left - {x};
      assert x !in (set y | y in q);
      assert (set y | y in q + [x]) == (set y | y in q) + {x};
      q := q + [x];
    }
  }

  /** The owners of all newly seen hashes lead only to seen ones. */
  ghost predicate Exhausted(graph: Graph, a: Assignment, before: set<Digest>, seen: set<Digest>) {
    forall d | d in seen && d !in before :: d in a && a[d] in graph && graph[a[d]] <= seen
  }

  class Matcher {
    const graph: Graph
    var owner: Assignment
    var seen: set<Digest>

    constructor (graph: Graph)
      ensures this.graph == graph && owner == map[] && seen == {}
    {
      this.graph := graph;
      owner := map[];
      seen := {};
    }

    /**
     Find `origin` a hash, moving other owners if that frees one.

     Success adds one owned hash and leaves every hash already seen alone.  Failure
     changes no ownership and leaves the newly seen hashes dead.  Whatever was dead
     before stays as it was, and an origin that only reaches dead hashes always fails.
     */
    method Augment(origin: Origin, ghost all: set<Digest>, ghost dead: set<Digest>) returns (found: bool)
      requires origin in graph && Universe(graph, all) && seen <= all
      requires Edges(graph, owner) && InjectiveOutside(owner, seen)
      requires !Owns(owner, seen, origin)
      requires Dead(graph, owner, dead)
      modifies this
      ensures old(seen) <= seen <= all
      ensures found ==> Augmented(graph, old(owner), owner, origin, old(seen))
      ensures !found ==> owner == old(owner) && graph[origin] <= seen
      ensures !found ==> Exhausted(graph, owner, old(seen), seen)
      ensures Dead(graph, owner, dead)
      ensures graph[origin] <= dead ==> !found
      decreases all - seen
    {
      ghost var before := seen;
      ghost var owned := owner;
      var order := Ordered(graph[origin]);
      var i := 0;
      while i < |order|
        invariant 0 <= i <= |order|
        invariant before <= seen <= all && owner == owned
        invariant forall k | 0 <= k < i :: order[k] in seen
        invariant Exhausted(graph, owner, before, seen)
      {
        var digest := order[i];
        i := i + 1;
        if digest in seen {
          continue;
        }
        ghost var outer := seen;
        seen := seen + {digest};
        if digest !in owner {
          TakeFree(graph, owned, origin, before, digest);
          owner := owner[digest := origin];
          return true;
        }
        ghost var inner := seen;
        var moved := Augment(owner[digest], all, dead);
        if moved {
          TakeOwned(graph, owned, owner, origin, before, inner, digest);
          owner := owner[digest := origin];
          return true;
        }
      }
      return false;
    }
  }

  /** The graph of a review list: every origin with the hashes its reviews carry. */
  method BuildGraph(reviews: seq<Review>) returns (graph: Graph)
    ensures forall o, d :: (o in graph && d in graph[o]) <==> Review(o, d) in reviews
  {
    graph := map[];
    for i := 0 to |reviews|
      invariant forall o, d :: (o in graph && d in graph[o]) <==> Review(o, d) in reviews[..i]
    {
      var Review(o, d) := reviews[i];
      graph := graph[o := (if o in graph then graph[o] else {}) + {d}];
    }
  }

  /** Between searches: the origins in `done` own a hash or reach only dead ones, the rest own none. */
  ghost predicate Progress(graph: Graph, a: Assignment, dead: set<Digest>, done: set<Origin>) {
    && Edges(graph, a) && Injective(a) && Dead(graph, a, dead)
    && forall o | o in graph :: if o in done then Owns(a, {}, o) || graph[o] <= dead else !Owns(a, {}, o)
  }

  lemma {:induction false} SuccessProgress(graph: Graph, a: Assignment, b: Assignment, dead: set<Digest>, done: set<Origin>, origin: Origin)
    requires Progress(graph, a, dead, done)
    requires Augmented(graph, a, b, origin, {}) && Dead(graph, b, dead)
    ensures Progress(graph, b, dead, done + {origin})
  {
  }

  lemma {:induction false} FailureProgress(graph: Graph, a: Assignment, dead: set<Digest>, done: set<Origin>, origin: Origin, seen: set<Digest>)
    requires Progress(graph, a, dead, done) && origin in graph && graph[origin] <= seen && Dead(graph, a, seen)
    ensures Progress(graph, a, dead + seen, done + {origin})
  {
  }

  /** Search once from one origin that has not had its turn. */
  method SearchFrom(matcher: Matcher, origin: Origin, count: nat, ghost all: set<Digest>, ghost dead: set<Digest>, ghost done: set<Origin>)
    returns (total: nat, ghost exhausted: set<Digest>)
    requires origin in matcher.graph && origin !in done && Universe(matcher.graph, all)
    requires Progress(matcher.graph, matcher.owner, dead, done) && count == |matcher.owner|
    modifies matcher
    ensures Progress(matcher.graph, matcher.owner, exhausted, done + {origin}) && total == |matcher.owner|
  {
    ghost var before := matcher.owner;
    ProgressMeans(matcher.graph, before, dead, done, origin);
    hide Progress;
    matcher.seen := {};
    var found := matcher.Augment(origin, all, dead);
    if found {
      SuccessProgress(matcher.graph, before, matcher.owner, dead, done, origin);
      total, exhausted := count + 1, dead;
    } else {
      SeenIsDead(matcher.graph, before, matcher.seen);
      FailureProgress(matcher.graph, before, dead, done, origin, matcher.seen);
      total, exhausted := count, dead + matcher.seen;
    }
  }

  lemma {:induction false} ProgressMeans(graph: Graph, a: Assignment, dead: set<Digest>, done: set<Origin>, origin: Origin)
    requires Progress(graph, a, dead, done) && origin in graph && origin !in done
    ensures Edges(graph, a) && InjectiveOutside(a, {}) && Dead(graph, a, dead) && !Owns(a, {}, origin)
  {
  }

  lemma {:induction false} SeenIsDead(graph: Graph, a: Assignment, seen: set<Digest>)
    requires Exhausted(graph, a, {}, seen)
    ensures Dead(graph, a, seen)
  {
  }

  /** Search once from every origin; `dead` gathers what the failed searches saw. */
  method SearchAll(matcher: Matcher, ghost all: set<Digest>) returns (count: nat, ghost dead: set<Digest>)
    requires matcher.owner == map[] && Universe(matcher.graph, all)
    modifies matcher
    ensures Progress(matcher.graph, matcher.owner, dead, matcher.graph.Keys)
    ensures count == |matcher.owner|
  {
    var origins := Ordered(matcher.graph.Keys);
    count := 0;
    dead := {};
    ghost var done := {};
    NothingDone(matcher.graph);
    AllTaken(origins);
    hide Progress, Universe, Taken, Unique;
    for i := 0 to |origins|
      invariant done == Taken(origins, i)
      invariant Progress(matcher.graph, matcher.owner, dead, done)
      invariant count == |matcher.owner|
    {
      NotYetTaken(origins, i);
      assert origins[i] in origins;
      count, dead := SearchFrom(matcher, origins[i], count, all, dead, done);
      done := done + {origins[i]};
    }
  }

  /** The first `n` of a list, as a set. */
  ghost function Taken(q: seq<string>, n: nat): set<string>
    requires n <= |q|
  {
    set k | 0 <= k < n :: q[k]
  }

  lemma {:induction false} NotYetTaken(q: seq<string>, n: nat)
    requires n < |q| && Unique(q)
    ensures q[n] !in Taken(q, n) && Taken(q, n + 1) == Taken(q, n) + {q[n]}
  {
  }

  lemma {:induction false} AllTaken(q: seq<string>)
    ensures Taken(q, 0) == {} && Taken(q, |q|) == set x | x in q
  {
  }

  lemma {:induction false} NothingDone(graph: Graph)
    ensures Progress(graph, map[], {}, {})
  {
  }

  /** The number of origins that corroborate independently: exactly the size of a maximum matching. */
  method IndependentCount(reviews: seq<Review>) returns (count: nat)
    ensures exists m: Assignment :: IsMatching(reviews, m) && |m| == count
    ensures forall m: Assignment | IsMatching(reviews, m) :: |m| <= count
  {
    var graph := BuildGraph(reviews);
    ghost var all := set r | r in reviews :: r.contentHash;
    assert Universe(graph, all) by {
      forall o, d | o in graph && d in graph[o] ensures d in all {
        assert Review(o, d) in reviews;
      }
    }
    var matcher := new Matcher(graph);
    ghost var dead;
    count, dead := SearchAll(matcher, all);
    assert IsMatching(reviews, matcher.owner);
    forall m: Assignment | IsMatching(reviews, m) ensures |m| <= count {
      CoverBounds(reviews, graph, matcher.owner, dead, m);
    }
  }
}

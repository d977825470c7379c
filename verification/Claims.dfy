/**
 Structured claims against supplied facts (fair/quality/claims.py).

 The model starts from parsed documents: a source is a list of facts or nothing usable, a
 response a list of claims or nothing.  A fact's place is its source and its offset, and
 values are compared with their JSON types.
 */
module Claims {
  import opened Options
  import opened JsonValues
  import opened Lists
  import P = Pointer

  const MAX_FACTS := 200

  datatype FactKey = FactKey(subject: string, predicate_: string, context: string)

  datatype Fact = Fact(key: FactKey, value: Json)

  datatype Reference = Reference(sourceId: string, offset: nat)

  datatype Source = Source(id: string, facts: Option<seq<Fact>>)

  datatype Answer = Answered(value: Json, sources: seq<Reference>) | Abstained

  datatype Claim = Claim(id: string, answer: Answer)

  datatype Target = Target(id: string, key: FactKey)

  type Record = (Json, Reference)

  // ---------- the index of facts ----------

  /** The records of one source for one key, from offset `n` on. */
  function RecordsFrom(id: string, facts: seq<Fact>, n: nat, key: FactKey): seq<Record>
    requires n <= |facts|
    decreases |facts| - n
  {
    if n == |facts| then []
    else (if facts[n].key == key then [(facts[n].value, Reference(id, n))] else []) + RecordsFrom(id, facts, n + 1, key)
  }

  /** Every supplied fact for a key, in the order supplied. */
  function Records(evidence: seq<Source>, key: FactKey): seq<Record> {
    if evidence == [] then []
    else
      var last := evidence[|evidence| - 1];
      Records(evidence[..|evidence| - 1], key) + if last.facts.None? then [] else RecordsFrom(last.id, last.facts.value, 0, key)
  }

  function Supplied(evidence: seq<Source>): nat {
    if evidence == [] then 0
    else Supplied(evidence[..|evidence| - 1]) + if evidence[|evidence| - 1].facts.None? then 0 else |evidence[|evidence| - 1].facts.value|
  }

  /** Every source is a fact document and together they are within the bound. */
  predicate Usable(evidence: seq<Source>) {
    (forall k | 0 <= k < |evidence| :: evidence[k].facts.Some?) && Supplied(evidence) <= MAX_FACTS
  }

  type Index = map<FactKey, seq<Record>>

  function Lookup(index: Index, key: FactKey): seq<Record> { if key in index then index[key] else [] }

  lemma {:induction false} RecordsLast(id: string, facts: seq<Fact>, n: nat, k: nat, key: FactKey)
    requires n <= k < |facts|
    ensures RecordsFrom(id, facts[..k + 1], n, key) ==
              RecordsFrom(id, facts[..k], n, key) + if facts[k].key == key then [(facts[k].value, Reference(id, k))] else []
    decreases k - n
  {
    if n < k {
      RecordsLast(id, facts, n + 1, k, key);
    }
  }

  lemma {:induction false} SuppliedMore(evidence: seq<Source>, i: nat)
    requires i < |evidence| && evidence[i].facts.Some?
    ensures Supplied(evidence[..i + 1]) == Supplied(evidence[..i]) + |evidence[i].facts.value|
    ensures forall key :: Records(evidence[..i + 1], key) == Records(evidence[..i], key) + RecordsFrom(evidence[i].id, evidence[i].facts.value, 0, key)
  {
    assert evidence[..i + 1][..i] == evidence[..i];
  }

  lemma {:induction false} SuppliedGrows(evidence: seq<Source>, i: nat)
    requires i <= |evidence|
    ensures Supplied(evidence[..i]) <= Supplied(evidence)
  {
    if i == |evidence| {
      assert evidence[..i] == evidence;
    } else {
      assert evidence[..|evidence| - 1][..i] == evidence[..i];
      SuppliedGrows(evidence[..|evidence| - 1], i);
    }
  }

  /** The index holds, for each key, exactly its records; None when the evidence is refused. */
  method FactIndex(evidence: seq<Source>) returns (r: Option<Index>)
    ensures r.Some? <==> Usable(evidence)
    ensures r.Some? ==> forall key :: Lookup(r.value, key) == Records(evidence, key)
  {
    hide Records, Supplied;
    var index: Index := map[];
    var count := 0;
    NothingSupplied();
    for i := 0 to |evidence|
      invariant forall k | 0 <= k < i :: evidence[k].facts.Some?
      invariant count == Supplied(evidence[..i]) <= MAX_FACTS
      invariant forall key :: Lookup(index, key) == Records(evidence[..i], key)
    {
      var source := evidence[i];
      if source.facts.None? {
        return None;
      }
      SuppliedMore(evidence, i);
      SuppliedGrows(evidence, i + 1);
      count := count + |source.facts.value|;
      if count > MAX_FACTS {
        return None;
      }
      index := AddFacts(index, source.id, source.facts.value);
    }
    assert evidence[..|evidence|] == evidence;
    r := Some(index);
  }

  lemma {:induction false} NothingSupplied()
    ensures Supplied([]) == 0 && forall key :: Records([], key) == []
  {
  }

  method AddFacts(before: Index, id: string, facts: seq<Fact>) returns (index: Index)
    ensures forall key :: Lookup(index, key) == Lookup(before, key) + RecordsFrom(id, facts, 0, key)
  {
    hide RecordsFrom;
    index := before;
    forall key ensures RecordsFrom(id, facts[..0], 0, key) == [] {
      NoRecords(id, facts[..0], key);
    }
    for k := 0 to |facts|
      invariant forall key :: Lookup(index, key) == Lookup(before, key) + RecordsFrom(id, facts[..k], 0, key)
    {
      forall key ensures RecordsFrom(id, facts[..k + 1], 0, key) ==
                           RecordsFrom(id, facts[..k], 0, key) + if facts[k].key == key then [(facts[k].value, Reference(id, k))] else [] {
        RecordsLast(id, facts, 0, k, key);
      }
      index := index[facts[k].key := Lookup(index, facts[k].key) + [(facts[k].value, Reference(id, k))]];
    }
    assert facts[..|facts|] == facts;
  }

  lemma {:induction false} NoRecords(id: string, facts: seq<Fact>, key: FactKey)
    requires facts == []
    ensures RecordsFrom(id, facts, 0, key) == []
  {
  }

  // ---------- the answers ----------

  function Ids(claims: seq<Claim>): (ids: seq<string>)
    ensures |ids| == |claims| && forall k | 0 <= k < |claims| :: ids[k] == claims[k].id
  {
    seq(|claims|, k requires 0 <= k < |claims| => claims[k].id)
  }

  /** Answers by claim id; None for a claim id given twice. */
  method ParseClaims(claims: seq<Claim>) returns (r: Option<map<string, Answer>>)
    ensures r.Some? <==> Unique(Ids(claims))
    ensures r.Some? ==> forall id :: id in r.value <==> id in Ids(claims)
    ensures r.Some? ==> forall k | 0 <= k < |claims| :: r.value[claims[k].id] == claims[k].answer
  {
    var answers := map[];
    var ids := Ids(claims);
    for k := 0 to |claims|
      invariant Unique(ids[..k])
      invariant forall id :: id in answers <==> id in ids[..k]
      invariant forall j | 0 <= j < k :: answers[claims[j].id] == claims[j].answer
    {
      if claims[k].id in answers {
        var j :| 0 <= j < k && ids[..k][j] == claims[k].id;
        assert ids[j] == ids[k];
        return None;
      }
      assert forall j | 0 <= j < k :: ids[..k][j] == ids[j];
      assert ids[..k + 1] == ids[..k] + [claims[k].id];
      answers := answers[claims[k].id := claims[k].answer];
    }
    assert ids[..|claims|] == ids;
    r := Some(answers);
  }

  datatype Status =
    | Missing | InsufficientEvidence | ConflictingEvidence | AbstainedStatus | Unsupported | Contradicted
    | InvalidProvenance | Supported

  datatype Reason =
    | ClaimFormatFailure | UnrequestedClaim | MissingClaim | UnsupportedClaim | ClaimOverConflictingEvidence
    | ContradictedClaim | ClaimProvenanceFailure

  datatype Check = Check(id: string, status: Status, evidenceCount: nat)

  function Values(records: seq<Record>): set<Json> { set k | 0 <= k < |records| :: records[k].0 }

  function Places(records: seq<Record>): set<Reference> { set k | 0 <= k < |records| :: records[k].1 }

  /** The answer is the one value of all the records and cites exactly them, each once. */
  ghost predicate Grounds(records: seq<Record>, answer: Answer) {
    && answer.Answered? && records != [] && (forall k | 0 <= k < |records| :: records[k].0 == answer.value)
    && Unique(answer.sources) && (forall place :: place in answer.sources <==> place in Places(records))
  }

  /** What a status says is wrong. */
  function ReasonOf(status: Status, answer: Option<Answer>): Option<Reason> {
    match status
    case Missing => Some(MissingClaim)
    case Unsupported => Some(UnsupportedClaim)
    case Contradicted => Some(ContradictedClaim)
    case InvalidProvenance => Some(ClaimProvenanceFailure)
    case ConflictingEvidence => if answer.Some? && answer.value.Answered? then Some(ClaimOverConflictingEvidence) else None
    case _ => None
  }

  /** One target, judged. A failed check also names its reason. */
  method Judge(records: seq<Record>, answer: Option<Answer>) returns (status: Status, reason: Option<Reason>)
    ensures status == Supported <==> answer.Some? && Grounds(records, answer.value)
    ensures reason.Some? <==> status != Supported && !(answer.Some? && answer.value.Abstained?)
    ensures reason == ReasonOf(status, answer)
    ensures status == Missing <==> answer.None?
    ensures status == Unsupported <==> answer.Some? && answer.value.Answered? && records == []
    ensures status == InsufficientEvidence <==> answer == Some(Abstained) && records == []
    ensures status == ConflictingEvidence <==> answer.Some? && exists i, j | 0 <= i < j < |records| :: records[i].0 != records[j].0
    ensures status == Contradicted <==> answer.Some? && answer.value.Answered? && records != []
                                         && forall k | 0 <= k < |records| :: records[k].0 == records[0].0 != answer.value.value
    ensures status == InvalidProvenance <==> answer.Some? && answer.value.Answered? && records != [] && !Grounds(records, answer.value)
                                              && forall k | 0 <= k < |records| :: records[k].0 == answer.value.value
  {
    var values := Values(records);
    OneValue(records);
    if answer.None? {
      return Missing, Some(MissingClaim);
    }
    if answer.value.Abstained? {
      return if records == [] then InsufficientEvidence else if |values| > 1 then ConflictingEvidence else AbstainedStatus, None;
    }
    if records == [] {
      return Unsupported, Some(UnsupportedClaim);
    }
    if |values| > 1 {
      return ConflictingEvidence, Some(ClaimOverConflictingEvidence);
    }
    assert records[0].0 in values;
    if answer.value.value !in values {
      return Contradicted, Some(ContradictedClaim);
    }
    var cited := answer.value.sources;
    var distinct := set place | place in cited;
    CountsDistinct(cited);
    if |cited| != |distinct| || distinct != Places(records) {
      return InvalidProvenance, Some(ClaimProvenanceFailure);
    }
    return Supported, None;
  }

  lemma {:induction false} OneValue(records: seq<Record>)
    ensures |Values(records)| > 1 <==> exists i, j | 0 <= i < j < |records| :: records[i].0 != records[j].0
    ensures |Values(records)| <= 1 <==> forall k | 0 <= k < |records| :: records[k].0 == records[0].0
  {
    var values := Values(records);
    if records != [] {
      var first := records[0].0;
      assert first in values;
      if forall k | 0 <= k < |records| :: records[k].0 == first {
        assert values == {first};
      } else {
        var k :| 0 <= k < |records| && records[k].0 != first;
        assert {first, records[k].0} <= values;
        SubsetSize({first, records[k].0}, values);
        assert records[0].0 != records[k].0 && 0 < k;
      }
    } else {
      assert values == {};
    }
  }

  // ---------- the verdict ----------

  datatype Verdict = EvidenceRefused | Judged(matched: Option<bool>, reasons: seq<Reason>, reports: seq<Check>)

  predicate Requested(targets: seq<Target>, id: string) {
    exists k | 0 <= k < |targets| :: targets[k].id == id
  }

  /** The claim that answers a target, if any. */
  function AnswerTo(claims: seq<Claim>, id: string): (a: Option<Answer>)
    ensures a.Some? <==> id in Ids(claims)
  {
    if claims == [] then None
    else
      assert Ids(claims) == [claims[0].id] + Ids(claims[1..]);
      if claims[0].id == id then Some(claims[0].answer) else AnswerTo(claims[1..], id)
  }

  /** Where no claim id is given twice, any claim of that id gives the answer. */
  lemma {:induction false} AnswerIsTheClaims(claims: seq<Claim>, id: string, k: nat)
    requires Unique(Ids(claims)) && k < |claims| && claims[k].id == id
    ensures AnswerTo(claims, id) == Some(claims[k].answer)
  {
    var ids := Ids(claims);
    if claims[0].id == id {
      assert ids[0] == ids[k];
    } else {
      assert ids == [claims[0].id] + Ids(claims[1..]);
      assert forall i | 0 <= i < |claims| - 1 :: Ids(claims[1..])[i] == ids[i + 1];
      AnswerIsTheClaims(claims[1..], id, k - 1);
    }
  }

  /** The target is answered, and its answer grounded in all the facts it matches. */
  ghost predicate GroundedTarget(claims: seq<Claim>, target: Target, evidence: seq<Source>) {
    var answer := AnswerTo(claims, target.id);
    answer.Some? && Grounds(Records(evidence, target.key), answer.value)
  }

  /** Exactly the requested claims are answered, each once, each grounded in all the facts it matches. */
  ghost predicate Grounded(claims: seq<Claim>, targets: seq<Target>, evidence: seq<Source>) {
    && Unique(Ids(claims))
    && (forall k | 0 <= k < |claims| :: Requested(targets, claims[k].id))
    && (forall k | 0 <= k < |targets| :: GroundedTarget(claims, targets[k], evidence))
  }

  /** The report on target `k` is that of its records and its answer. */
  ghost predicate ReportOn(check: Check, target: Target, claims: seq<Claim>, evidence: seq<Source>) {
    var records, answer := Records(evidence, target.key), AnswerTo(claims, target.id);
    && check.id == target.id && check.evidenceCount == |records|
    && (check.status == Supported <==> GroundedTarget(claims, target, evidence))
    && (check.status == Missing <==> answer.None?)
    && (check.status == InsufficientEvidence <==> answer == Some(Abstained) && records == [])
    && (check.status == ConflictingEvidence <==> answer.Some? && exists i, j | 0 <= i < j < |records| :: records[i].0 != records[j].0)
    && (check.status == Unsupported <==> answer.Some? && answer.value.Answered? && records == [])
    && (check.status == Contradicted <==> answer.Some? && answer.value.Answered? && records != []
                                           && forall k | 0 <= k < |records| :: records[k].0 == records[0].0 != answer.value.value)
    && (check.status == InvalidProvenance <==> answer.Some? && answer.value.Answered? && records != [] && !Grounds(records, answer.value)
                                                && forall k | 0 <= k < |records| :: records[k].0 == answer.value.value)
  }

  /** The reason report `k` gives, if any. */
  function ReasonAt(reports: seq<Check>, targets: seq<Target>, claims: seq<Claim>, k: nat): Option<Reason>
    requires k < |reports| && k < |targets|
  {
    ReasonOf(reports[k].status, AnswerTo(claims, targets[k].id))
  }

  /** Some report gives this reason. */
  ghost predicate Given(reason: Reason, reports: seq<Check>, targets: seq<Target>, claims: seq<Claim>)
    requires |reports| <= |targets|
  {
    exists k | 0 <= k < |reports| :: ReasonAt(reports, targets, claims, k) == Some(reason)
  }

  predicate Passing(check: Check, answer: Option<Answer>) {
    check.status == Supported || (answer.Some? && answer.value.Abstained?)
  }

  /**
   True exactly for a grounded response; false exactly when something is wrong, with its
   reasons; undecided when nothing is wrong but a claim is abstained from.
   */
  method ValidateClaims(response: Option<seq<Claim>>, targets: seq<Target>, evidence: seq<Source>) returns (r: Verdict)
    ensures r.EvidenceRefused? <==> !Usable(evidence)
    ensures r.Judged? ==> (r.matched == Some(true) <==> response.Some? && Grounded(response.value, targets, evidence))
    ensures r.Judged? ==> (r.matched == Some(false) <==> r.reasons != []) && Unique(r.reasons)
    ensures r.Judged? && (response.None? || !Unique(Ids(response.value))) ==> r == Judged(Some(false), [ClaimFormatFailure], [])
    ensures r.Judged? && response.Some? && Unique(Ids(response.value)) ==>
              && ClaimFormatFailure !in r.reasons
              && |r.reports| == |targets|
              && (forall k | 0 <= k < |targets| :: ReportOn(r.reports[k], targets[k], response.value, evidence))
              && (UnrequestedClaim in r.reasons <==> exists k | 0 <= k < |response.value| :: !Requested(targets, response.value[k].id))
              && (forall reason | reason != UnrequestedClaim :: reason in r.reasons <==> Given(reason, r.reports, targets, response.value))
  {
    hide Records, Usable, Grounds, Distinct, ReportOn, AnswerTo, Requested, Unique, Passing, Grounded, Ids, Given;
    var index := FactIndex(evidence);
    if index.None? {
      return EvidenceRefused;
    }
    if response.None? {
      OneReason();
      return Judged(Some(false), [ClaimFormatFailure], []);
    }
    var claims := response.value;
    var answers := ParseClaims(claims);
    if answers.None? {
      OneReason();
      NotGrounded(claims, targets, evidence);
      return Judged(Some(false), [ClaimFormatFailure], []);
    }
    var unrequested := exists id <- answers.value.Keys :: !Requested(targets, id);
    UnrequestedFound(claims, answers.value, targets);
    var reasons, reports := JudgeTargets(claims, answers.value, targets, evidence, index.value, unrequested);
    VerdictGrounded(claims, targets, evidence, reports);
    if reasons != [] {
      assert reasons[0] in Distinct(reasons);
      r := Judged(Some(false), Distinct(reasons), reports);
    } else if forall k | 0 <= k < |reports| :: reports[k].status == Supported {
      r := Judged(Some(true), [], reports);
    } else {
      r := Judged(None, [], reports);
    }
    NoReasons();
  }

  lemma {:induction false} OneReason()
    ensures Unique([ClaimFormatFailure])
  {
  }

  lemma {:induction false} NoReasons()
    ensures Unique<Reason>([])
  {
  }

  lemma {:induction false} NotGrounded(claims: seq<Claim>, targets: seq<Target>, evidence: seq<Source>)
    requires !Unique(Ids(claims))
    ensures !Grounded(claims, targets, evidence)
  {
  }

  lemma {:induction false} UnrequestedFound(claims: seq<Claim>, answers: map<string, Answer>, targets: seq<Target>)
    requires forall id :: id in answers <==> id in Ids(claims)
    ensures (exists id <- answers.Keys :: !Requested(targets, id)) <==> exists k | 0 <= k < |claims| :: !Requested(targets, claims[k].id)
  {
    hide Requested;
    forall k | 0 <= k < |claims| ensures claims[k].id in answers {
      assert Ids(claims)[k] in Ids(claims);
    }
    forall id | id in answers ensures exists k | 0 <= k < |claims| :: claims[k].id == id {
      var k :| 0 <= k < |claims| && Ids(claims)[k] == id;
      assert claims[k].id == id;
    }
  }

  /** All targets supported, nothing unrequested: that is grounding. */
  lemma {:induction false} VerdictGrounded(claims: seq<Claim>, targets: seq<Target>, evidence: seq<Source>, reports: seq<Check>)
    requires Unique(Ids(claims)) && |reports| == |targets|
    requires forall k | 0 <= k < |targets| :: ReportOn(reports[k], targets[k], claims, evidence)
    ensures Grounded(claims, targets, evidence) <==>
              && (forall k | 0 <= k < |claims| :: Requested(targets, claims[k].id))
              && (forall k | 0 <= k < |reports| :: reports[k].status == Supported)
    ensures forall k | 0 <= k < |reports| :: reports[k].status == Supported ==> Passing(reports[k], AnswerTo(claims, targets[k].id))
  {
    hide GroundedTarget, Requested, AnswerTo, ReportOn, Unique, Ids;
    forall k | 0 <= k < |targets|
      ensures reports[k].status == Supported <==> GroundedTarget(claims, targets[k], evidence)
    {
      ReportSays(reports[k], targets[k], claims, evidence);
    }
  }

  lemma {:induction false} ReportSays(check: Check, target: Target, claims: seq<Claim>, evidence: seq<Source>)
    requires ReportOn(check, target, claims, evidence)
    ensures check.status == Supported <==> GroundedTarget(claims, target, evidence)
  {
    hide Grounds, Records, AnswerTo, GroundedTarget;
  }

  /** The loop over the targets. */
  method JudgeTargets(claims: seq<Claim>, answers: map<string, Answer>, targets: seq<Target>, evidence: seq<Source>,
                      index: Index, unrequested: bool)
    returns (reasons: seq<Reason>, reports: seq<Check>)
    requires Unique(Ids(claims)) && (forall id :: id in answers <==> id in Ids(claims))
    requires forall k | 0 <= k < |claims| :: Ids(claims)[k] in answers && answers[claims[k].id] == claims[k].answer
    requires forall key :: Lookup(index, key) == Records(evidence, key)
    ensures |reports| == |targets| && forall k | 0 <= k < |targets| :: ReportOn(reports[k], targets[k], claims, evidence)
    ensures reasons == [] <==> !unrequested && forall k | 0 <= k < |targets| :: Passing(reports[k], AnswerTo(claims, targets[k].id))
    ensures ClaimFormatFailure !in reasons
    ensures UnrequestedClaim in reasons <==> unrequested
    ensures forall reason | reason != UnrequestedClaim :: reason in reasons <==> Given(reason, reports, targets, claims)
  {
    hide Records, ReportOn, AnswerTo, Unique, Passing, Ids, Lookup, ReasonAt, Given;
    reasons, reports := if unrequested then [UnrequestedClaim] else [], [];
    forall reason ensures !Given(reason, [], targets, claims) {
      NothingGiven(reason, targets, claims);
    }
    for n := 0 to |targets|
      invariant |reports| == n && forall k | 0 <= k < n :: ReportOn(reports[k], targets[k], claims, evidence)
      invariant reasons == [] <==> !unrequested && forall k | 0 <= k < n :: Passing(reports[k], AnswerTo(claims, targets[k].id))
      invariant ClaimFormatFailure !in reasons
      invariant UnrequestedClaim in reasons <==> unrequested
      invariant forall reason | reason != UnrequestedClaim :: reason in reasons <==> Given(reason, reports, targets, claims)
    {
      var check, reason := JudgeTarget(claims, answers, targets[n], evidence, index);
      forall other ensures Given(other, reports + [check], targets, claims) <==> Given(other, reports, targets, claims) || reason == Some(other) {
        GivenMore(other, reports, check, targets, claims);
      }
      if reason.Some? {
        reasons := reasons + [reason.value];
      }
      reports := reports + [check];
    }
  }

  lemma {:induction false} NothingGiven(reason: Reason, targets: seq<Target>, claims: seq<Claim>)
    ensures !Given(reason, [], targets, claims)
  {
  }

  lemma {:induction false} GivenMore(reason: Reason, reports: seq<Check>, check: Check, targets: seq<Target>, claims: seq<Claim>)
    requires |reports| < |targets|
    ensures Given(reason, reports + [check], targets, claims) <==>
              Given(reason, reports, targets, claims) || ReasonOf(check.status, AnswerTo(claims, targets[|reports|].id)) == Some(reason)
  {
    hide ReasonOf, AnswerTo;
    var more := reports + [check];
    assert ReasonAt(more, targets, claims, |reports|) == ReasonOf(check.status, AnswerTo(claims, targets[|reports|].id));
    assert forall k: nat | k < |reports| :: ReasonAt(more, targets, claims, k) == ReasonAt(reports, targets, claims, k);
  }

  method JudgeTarget(claims: seq<Claim>, answers: map<string, Answer>, target: Target, evidence: seq<Source>, index: Index)
    returns (check: Check, reason: Option<Reason>)
    requires Unique(Ids(claims)) && (forall id :: id in answers <==> id in Ids(claims))
    requires forall k | 0 <= k < |claims| :: Ids(claims)[k] in answers && answers[claims[k].id] == claims[k].answer
    requires forall key :: Lookup(index, key) == Records(evidence, key)
    ensures ReportOn(check, target, claims, evidence)
    ensures reason.None? <==> Passing(check, AnswerTo(claims, target.id))
    ensures reason.Some? ==> reason.value != ClaimFormatFailure && reason.value != UnrequestedClaim
    ensures reason == ReasonOf(check.status, AnswerTo(claims, target.id))
  {
    hide Records, Grounds, Lookup, Unique, Ids;
    var records := Lookup(index, target.key);
    AnswerFound(claims, answers, target.id);
    var answer := if target.id in answers then Some(answers[target.id]) else None;
    var status;
    status, reason := Judge(records, answer);
    check := Check(target.id, status, |records|);
  }

  lemma {:induction false} AnswerFound(claims: seq<Claim>, answers: map<string, Answer>, id: string)
    requires Unique(Ids(claims)) && (forall id :: id in answers <==> id in Ids(claims))
    requires forall k | 0 <= k < |claims| :: Ids(claims)[k] in answers && answers[claims[k].id] == claims[k].answer
    ensures AnswerTo(claims, id) == if id in answers then Some(answers[id]) else None
  {
    if id in Ids(claims) {
      var k :| 0 <= k < |claims| && Ids(claims)[k] == id;
      AnswerIsTheClaims(claims, id, k);
    }
  }

  // ---------- comparing two responses ----------

  /** The pointer a reference is written with. */
  function PointerText(r: Reference): string { "/facts/" + P.Decimal(r.offset) }

  /** References by source id, then by pointer, as strings. */
  predicate ReferenceLe(a: Reference, b: Reference) {
    || (a.sourceId != b.sourceId && TextLe(a.sourceId, b.sourceId))
    || (a.sourceId == b.sourceId && TextLe(PointerText(a), PointerText(b)))
  }

  lemma {:induction false} ReferencesAreOrdered()
    ensures TotalOrder(ReferenceLe)
  {
    hide TextLe, PointerText;
    forall a, b ensures (ReferenceLe(a, b) || ReferenceLe(b, a)) && (ReferenceLe(a, b) && ReferenceLe(b, a) ==> a == b) {
      TextTotal(a.sourceId, b.sourceId);
      TextTotal(PointerText(a), PointerText(b));
      if PointerText(a) == PointerText(b) {
        PointersTellApart(a, b);
      }
    }
    forall a, b, c | ReferenceLe(a, b) && ReferenceLe(b, c) ensures ReferenceLe(a, c) {
      ReferenceTransitive(a, b, c);
    }
  }

  lemma {:induction false} PointersTellApart(a: Reference, b: Reference)
    requires PointerText(a) == PointerText(b)
    ensures a.offset == b.offset
  {
    assert PointerText(a)[|"/facts/"|..] == P.Decimal(a.offset) && PointerText(b)[|"/facts/"|..] == P.Decimal(b.offset);
    P.DecimalIsIndex(a.offset);
    P.DecimalIsIndex(b.offset);
  }

  lemma {:induction false} ReferenceTransitive(a: Reference, b: Reference, c: Reference)
    requires ReferenceLe(a, b) && ReferenceLe(b, c)
    ensures ReferenceLe(a, c)
  {
    hide TextLe, PointerText;
    if a.sourceId == b.sourceId == c.sourceId {
      TextTransitive(PointerText(a), PointerText(b), PointerText(c));
    } else if a.sourceId != b.sourceId && b.sourceId != c.sourceId {
      TextTransitive(a.sourceId, b.sourceId, c.sourceId);
      TextTotal(a.sourceId, b.sourceId);
    }
  }

  function Canonical(answer: Answer): Answer {
    match answer
    case Answered(value, sources) => Answered(value, Sort(sources, ReferenceLe))
    case Abstained => Abstained
  }

  /** What two responses are compared by; None when a claim id is given twice. */
  function Comparable(claims: seq<Claim>): Option<map<string, Answer>> {
    if !Unique(Ids(claims)) then None
    else Some(map id | id in Ids(claims) :: Canonical(AnswerTo(claims, id).value))
  }

  /** The same answer, but for the order of its citations. */
  predicate SameAnswer(a: Answer, b: Answer) {
    match (a, b)
    case (Answered(v, s), Answered(w, t)) => v == w && multiset(s) == multiset(t)
    case (Abstained, Abstained) => true
    case _ => false
  }

  /** The same claims, but for their order and that of their citations. */
  ghost predicate SameClaims(a: seq<Claim>, b: seq<Claim>) {
    && (forall id :: id in Ids(a) <==> id in Ids(b))
    && (forall id | id in Ids(a) :: SameAnswer(AnswerTo(a, id).value, AnswerTo(b, id).value))
  }

  lemma {:induction false} CanonicalDecides(a: Answer, b: Answer)
    ensures Canonical(a) == Canonical(b) <==> SameAnswer(a, b)
  {
    hide ReferenceLe, TotalOrder, Sorted;
    if a.Answered? && b.Answered? {
      ReferencesAreOrdered();
      SortSorted(a.sources, ReferenceLe);
      SortSorted(b.sources, ReferenceLe);
      if multiset(a.sources) == multiset(b.sources) {
        SortedOnce(Sort(a.sources, ReferenceLe), Sort(b.sources, ReferenceLe), ReferenceLe);
      }
    }
  }

  /** Two responses compare equal exactly when they differ in nothing but order. */
  lemma {:induction false} ComparableIgnoresOrderOnly(a: seq<Claim>, b: seq<Claim>)
    requires Unique(Ids(a)) && Unique(Ids(b))
    ensures Comparable(a) == Comparable(b) <==> SameClaims(a, b)
  {
    hide Canonical, SameAnswer, Unique, AnswerTo;
    var m, n := Comparable(a).value, Comparable(b).value;
    forall id | id in Ids(a) && id in Ids(b)
      ensures m[id] == n[id] <==> SameAnswer(AnswerTo(a, id).value, AnswerTo(b, id).value)
    {
      CanonicalDecides(AnswerTo(a, id).value, AnswerTo(b, id).value);
    }
    if m == n {
      forall id ensures id in Ids(a) <==> id in Ids(b) {
        assert id in m <==> id in n;
      }
    }
  }

  /** Each reason of a report says of the evidence and the answer just what it names. */
  lemma {:induction false} ReasonsTellWhy(check: Check, target: Target, claims: seq<Claim>, evidence: seq<Source>)
    requires ReportOn(check, target, claims, evidence)
    ensures var records, answer := Records(evidence, target.key), AnswerTo(claims, target.id);
            var answered := answer.Some? && answer.value.Answered?;
            var conflict := exists i, j :: 0 <= i < j < |records| && records[i].0 != records[j].0;
            var reason := ReasonOf(check.status, answer);
            && (reason == Some(MissingClaim) <==> answer.None?)
            && (reason == Some(UnsupportedClaim) <==> answered && records == [])
            && (reason == Some(ClaimOverConflictingEvidence) <==> answered && conflict)
            && (reason == Some(ContradictedClaim) <==>
                  answered && records != [] && forall k | 0 <= k < |records| :: records[k].0 == records[0].0 != answer.value.value)
            && (reason == Some(ClaimProvenanceFailure) <==>
                  answered && records != [] && (forall k | 0 <= k < |records| :: records[k].0 == answer.value.value)
                  && !(Unique(answer.value.sources) && forall place :: place in answer.value.sources <==> place in Places(records)))
  {
    hide Records, GroundedTarget, Places, Unique;
  }

  lemma {:induction false} RecordsFromMeans(id: string, facts: seq<Fact>, n: nat, key: FactKey, value: Json, place: Reference)
    requires n <= |facts|
    ensures (value, place) in RecordsFrom(id, facts, n, key) <==>
              place.sourceId == id && n <= place.offset < |facts| && facts[place.offset] == Fact(key, value)
    decreases |facts| - n
  {
    if n < |facts| {
      RecordsFromMeans(id, facts, n + 1, key, value, place);
    }
  }

  /** A key's records are exactly the facts supplied under it, each with the place it stands at. */
  lemma {:induction false} RecordsAreTheFacts(evidence: seq<Source>, key: FactKey, value: Json, place: Reference)
    ensures (value, place) in Records(evidence, key) <==>
              exists k :: 0 <= k < |evidence| && evidence[k].id == place.sourceId && evidence[k].facts.Some?
                          && place.offset < |evidence[k].facts.value| && evidence[k].facts.value[place.offset] == Fact(key, value)
  {
    hide RecordsFrom;
    if evidence != [] {
      var init, last := evidence[..|evidence| - 1], evidence[|evidence| - 1];
      RecordsAreTheFacts(init, key, value, place);
      assert forall k | 0 <= k < |init| :: init[k] == evidence[k];
      if last.facts.Some? {
        RecordsFromMeans(last.id, last.facts.value, 0, key, value, place);
      }
    }
  }
}

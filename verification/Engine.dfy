/**
 The quality gate (fair/quality/engine.py): which answers are accepted, and why the answer
 handed to the caller is accepted again.

 The JSON parser, the arithmetic readers, the schema validator and the contracts judged
 elsewhere are parameters, gathered in a `Judge`.
 */
module Engine {
  import opened Options
  import opened Lists
  import opened JsonValues
  import opened Fence
  import opened JsonText

  const STRUCTURE_SCORE := 85.0

  datatype Contract =
    | Arithmetic(expression: string)
    | ReferenceJson(expected: Json)
    | GroundedJson
    | GroundedClaims
    | PythonFunction

  datatype Mode = Use | Refresh | Bypass

  /** `rest` stands for every other field of a request. */
  datatype Request = Request(
    client: string, validation: Option<Contract>, schema: Option<Json>, evidence: map<string, string>,
    freshness: bool, crossCheck: bool, highImpact: bool, sourcePolicy: bool, rest: string, mode: Mode, ttl: Option<nat>)

  datatype Profile = Profile(requiresGrounding: bool, capabilities: set<string>, minimum: real)

  datatype Citation = Citation(sourceId: string, quote: string)

  datatype Assertion = Assertion(subject: string, predicate_: string, value: string)

  datatype Response = Response(text: string, finish: string, citations: seq<Citation>, assertions: seq<Assertion>)

  datatype Review = NotRequested | Reviewed | Blocked | ServiceFailed

  datatype Reason =
    | EmptyResponse | IncompleteResponse | SchemaFailure | FabricatedCitation | UnsupportedCitation
    | MaterialContradiction | GroundingRequired | ArithmeticMismatch | ReferenceMismatch | Elsewhere(code: string)

  datatype State =
    | NotVerified | StructureValidated | DeterministicArithmetic | HostReferenceMatch | SourceDataMatch
    | StructuredClaimsSupported | BoundedCodeTests

  datatype Report = Report(score: Option<real>, reasons: seq<Reason>, state: State, proseRemoved: bool)

  /** `other` judges the contracts modelled elsewhere: matched, undecided or not, with its reasons and a prose note. */
  datatype Judge = Judge(
    parse: string -> Option<Json>,
    word: char -> bool,
    calculate: string -> Option<real>,
    numeric: string -> Option<real>,
    validates: (Json, Json) -> bool,
    norm: string -> string,
    other: (Request, string) -> (Option<bool>, seq<Reason>, bool))

  predicate ExpectsDocument(request: Request) {
    if request.validation.None? then request.schema.Some? else request.validation.value.ReferenceJson? || request.validation.value.GroundedJson?
  }

  // ---------- the checks ----------

  function Reading(judge: Judge, text: string): Option<JsonText.Reading<Json>> { ReadJson(judge.parse, judge.word, text) }

  /** The answer has the shape asked for, read through a wrapper only where a document was asked for. */
  predicate SchemaHolds(judge: Judge, request: Request, text: string)
    requires request.schema.Some?
  {
    var read := Reading(judge, text);
    && read.Some? && (read.value.wrapper == Prose ==> ExpectsDocument(request))
    && judge.validates(request.schema.value, read.value.value)
  }

  /** `quote in text` */
  predicate Quotes(text: string, quote: string) {
    quote <= text || (text != [] && Quotes(text[1..], quote))
  }

  function CitationReasons(citations: seq<Citation>, evidence: map<string, string>): seq<Reason> {
    if citations == [] then []
    else
      var last := citations[|citations| - 1];
      CitationReasons(citations[..|citations| - 1], evidence)
      + if last.sourceId !in evidence then [FabricatedCitation]
        else if !Quotes(evidence[last.sourceId], last.quote) then [UnsupportedCitation] else []
  }

  /** What an assertion is about. */
  function Subject(a: Assertion, norm: string -> string): (string, string) { (norm(a.subject), norm(a.predicate_)) }

  /** The value last asserted for each subject and predicate. */
  function Asserted(assertions: seq<Assertion>, norm: string -> string): map<(string, string), string> {
    if assertions == [] then map[]
    else
      var last := assertions[|assertions| - 1];
      Asserted(assertions[..|assertions| - 1], norm)[Subject(last, norm) := norm(last.value)]
  }

  predicate Contradicts(asserted: map<(string, string), string>, a: Assertion, norm: string -> string) {
    Subject(a, norm) in asserted && asserted[Subject(a, norm)] != norm(a.value)
  }

  function ContradictionReasons(assertions: seq<Assertion>, norm: string -> string): seq<Reason> {
    if assertions == [] then []
    else
      var before := assertions[..|assertions| - 1];
      ContradictionReasons(before, norm)
      + if Contradicts(Asserted(before, norm), assertions[|assertions| - 1], norm) then [MaterialContradiction] else []
  }

  predicate Grounding(kind: Option<Contract>) { kind.Some? && (kind.value.GroundedJson? || kind.value.GroundedClaims?) }

  /** What the contract says: matched or not, or undecided. */
  function Matched(judge: Judge, request: Request, text: string): Option<bool>
    requires request.validation.Some?
  {
    match request.validation.value
    case Arithmetic(e) => Some(judge.numeric(text).Some? && judge.calculate(e).Some? && judge.numeric(text) == judge.calculate(e))
    case ReferenceJson(expected) => Some(Reading(judge, text).Some? && Reading(judge, text).value.value == expected)
    case _ => judge.other(request, text).0
  }

  function ContractReasons(judge: Judge, request: Request, text: string): seq<Reason> {
    if request.validation.None? then []
    else
      match request.validation.value
      case Arithmetic(_) => if Matched(judge, request, text) == Some(true) then [] else [ArithmeticMismatch]
      case ReferenceJson(_) => if Matched(judge, request, text) == Some(true) then [] else [ReferenceMismatch]
      case _ => judge.other(request, text).1
  }

  function ContractState(contract: Contract): State {
    match contract
    case Arithmetic(_) => DeterministicArithmetic
    case ReferenceJson(_) => HostReferenceMatch
    case GroundedJson => SourceDataMatch
    case GroundedClaims => StructuredClaimsSupported
    case PythonFunction => BoundedCodeTests
  }

  function When(found: bool, reason: Reason): seq<Reason> { if found then [reason] else [] }

  /** Everything found wrong, in the order it is looked for. */
  function Reasons(judge: Judge, request: Request, profile: Profile, response: Response): seq<Reason> {
    When(Blank(response.text), EmptyResponse)
    + When(response.finish != "stop", IncompleteResponse)
    + When(request.schema.Some? && !SchemaHolds(judge, request, response.text), SchemaFailure)
    + CitationReasons(response.citations, request.evidence)
    + ContradictionReasons(response.assertions, judge.norm)
    + When(profile.requiresGrounding && response.citations == [] && !Grounding(request.validation), GroundingRequired)
    + ContractReasons(judge, request, response.text)
  }

  /** Something is asked for that no validator covers. */
  predicate Unsupported(request: Request, profile: Profile) {
    || (profile.requiresGrounding && !Grounding(request.validation))
    || request.freshness
    || profile.capabilities - (if request.validation == Some(PythonFunction) then {"structured_output", "coding"} else {"structured_output"}) != {}
  }

  function ProseNote(judge: Judge, request: Request, text: string): bool {
    || (request.schema.Some? && SchemaHolds(judge, request, text) && Reading(judge, text).value.wrapper == Prose)
    || (request.validation.Some? &&
        match request.validation.value
        case Arithmetic(_) => false
        case ReferenceJson(_) => Matched(judge, request, text) == Some(true) && Reading(judge, text).value.wrapper == Prose
        case _ => judge.other(request, text).2)
  }

  function ReportOf(judge: Judge, request: Request, profile: Profile, response: Response, review: Review): Report {
    var reasons := Reasons(judge, request, profile, response);
    var note := ProseNote(judge, request, response.text);
    if reasons != [] then Report(Some(0.0), Distinct(reasons), NotVerified, note)
    else if review == Blocked || review == ServiceFailed then Report(None, [], NotVerified, note)
    else if Unsupported(request, profile) then Report(None, [], NotVerified, note)
    else if request.validation.Some? then
      match Matched(judge, request, response.text)
      case None => Report(None, [], NotVerified, note)
      case Some(matched) => Report(Some(if matched then 100.0 else 0.0), [], if matched then ContractState(request.validation.value) else NotVerified, note)
    else if request.schema.Some? then Report(Some(STRUCTURE_SCORE), [], StructureValidated, note)
    else Report(None, [], NotVerified, note)
  }

  predicate Acceptable(report: Report, profile: Profile) {
    report.reasons == [] && report.score.Some? && report.score.value >= profile.minimum && report.state != NotVerified
  }

  /** The gate, step by step. */
  method Evaluate(judge: Judge, request: Request, profile: Profile, response: Response, review: Review) returns (report: Report)
    ensures report == ReportOf(judge, request, profile, response, review)
  {
    hide Reasons, SchemaHolds, Reading, ProseNote, Unsupported, Distinct, ContractReasons;
    var reasons := FindReasons(judge, request, profile, response);
    var score: Option<real>, state := None, NotVerified;
    if request.validation.Some? {
      var matched := Matched(judge, request, response.text);
      state := if matched == Some(true) then ContractState(request.validation.value) else NotVerified;
      score := if matched.None? then None else Some(if matched.value then 100.0 else 0.0);
    } else if request.schema.Some? && SchemaHolds(judge, request, response.text) {
      state, score := StructureValidated, Some(STRUCTURE_SCORE);
    }
    if Unsupported(request, profile) {
      state := NotVerified;
      if reasons == [] {
        score := None;
      }
    }
    if review == Blocked || review == ServiceFailed {
      state, score := NotVerified, None;
    }
    if reasons != [] {
      state, score := NotVerified, Some(0.0);
    }
    NoneDistinct(reasons);
    if request.schema.Some? && !SchemaHolds(judge, request, response.text) {
      SchemaReason(judge, request, profile, response);
    }
    report := Report(score, Distinct(reasons), state, ProseNote(judge, request, response.text));
  }

  method FindReasons(judge: Judge, request: Request, profile: Profile, response: Response) returns (reasons: seq<Reason>)
    ensures reasons == Reasons(judge, request, profile, response)
  {
    hide Blank, SchemaHolds, CitationReasons, ContradictionReasons, ContractReasons, Grounding;
    reasons := When(Blank(response.text), EmptyResponse);
    reasons := reasons + When(response.finish != "stop", IncompleteResponse);
    reasons := reasons + When(request.schema.Some? && !SchemaHolds(judge, request, response.text), SchemaFailure);
    var cited := Citations(response.citations, request.evidence);
    reasons := reasons + cited;
    var contradicted := Contradictions(response.assertions, judge.norm);
    reasons := reasons + contradicted;
    reasons := reasons + When(profile.requiresGrounding && response.citations == [] && !Grounding(request.validation), GroundingRequired);
    reasons := reasons + ContractReasons(judge, request, response.text);
  }

  /** Nothing is wrong exactly when each check finds nothing. */
  lemma {:induction false} NothingWrong(judge: Judge, request: Request, profile: Profile, response: Response)
    ensures Reasons(judge, request, profile, response) == [] <==>
              && !Blank(response.text) && response.finish == "stop"
              && (request.schema.Some? ==> SchemaHolds(judge, request, response.text))
              && CitationReasons(response.citations, request.evidence) == []
              && ContradictionReasons(response.assertions, judge.norm) == []
              && !(profile.requiresGrounding && response.citations == [] && !Grounding(request.validation))
              && ContractReasons(judge, request, response.text) == []
  {
    hide Blank, SchemaHolds, CitationReasons, ContradictionReasons, ContractReasons, Grounding;
  }

  lemma {:induction false} SchemaReason(judge: Judge, request: Request, profile: Profile, response: Response)
    requires request.schema.Some? && !SchemaHolds(judge, request, response.text)
    ensures Reasons(judge, request, profile, response) != []
  {
    NothingWrong(judge, request, profile, response);
  }

  lemma {:induction false} NoneDistinct(reasons: seq<Reason>)
    ensures Distinct(reasons) == [] <==> reasons == []
  {
    if reasons != [] {
      assert reasons[0] in Distinct(reasons);
    }
  }

  method Citations(citations: seq<Citation>, evidence: map<string, string>) returns (reasons: seq<Reason>)
    ensures reasons == CitationReasons(citations, evidence)
  {
    hide Quotes;
    reasons := [];
    for n := 0 to |citations|
      invariant reasons == CitationReasons(citations[..n], evidence)
    {
      assert citations[..n + 1][..n] == citations[..n];
      var citation := citations[n];
      if citation.sourceId !in evidence {
        reasons := reasons + [FabricatedCitation];
      } else if !Quotes(evidence[citation.sourceId], citation.quote) {
        reasons := reasons + [UnsupportedCitation];
      }
    }
    assert citations[..|citations|] == citations;
  }

  method Contradictions(assertions: seq<Assertion>, norm: string -> string) returns (reasons: seq<Reason>)
    ensures reasons == ContradictionReasons(assertions, norm)
  {
    reasons := [];
    var asserted: map<(string, string), string> := map[];
    for n := 0 to |assertions|
      invariant asserted == Asserted(assertions[..n], norm)
      invariant reasons == ContradictionReasons(assertions[..n], norm)
    {
      assert assertions[..n + 1][..n] == assertions[..n];
      var assertion := assertions[n];
      if Contradicts(asserted, assertion, norm) {
        reasons := reasons + [MaterialContradiction];
      }
      asserted := asserted[Subject(assertion, norm) := norm(assertion.value)];
    }
    assert assertions[..|assertions|] == assertions;
  }

  // ---------- what acceptance means ----------

  /** No quote is invented and every quote stands in the source it cites. */
  ghost predicate CitationsHold(citations: seq<Citation>, evidence: map<string, string>) {
    forall k | 0 <= k < |citations| :: citations[k].sourceId in evidence && Quotes(evidence[citations[k].sourceId], citations[k].quote)
  }

  lemma {:induction false} CitationsAreChecked(citations: seq<Citation>, evidence: map<string, string>)
    ensures CitationReasons(citations, evidence) == [] <==> CitationsHold(citations, evidence)
  {
    hide Quotes;
    if citations != [] {
      CitationsAreChecked(citations[..|citations| - 1], evidence);
    }
  }

  predicate Agree(a: Assertion, b: Assertion, norm: string -> string) {
    Subject(a, norm) == Subject(b, norm) ==> norm(a.value) == norm(b.value)
  }

  /** No subject and predicate is given two values. */
  ghost predicate Consistent(assertions: seq<Assertion>, norm: string -> string) {
    forall i, j | 0 <= i < j < |assertions| :: Agree(assertions[i], assertions[j], norm)
  }

  /** What is remembered is what some assertion said last, and every subject is. */
  lemma {:induction false} AssertedSomewhere(assertions: seq<Assertion>, norm: string -> string)
    ensures forall k | 0 <= k < |assertions| :: Subject(assertions[k], norm) in Asserted(assertions, norm)
    ensures forall key <- Asserted(assertions, norm) ::
              exists k :: 0 <= k < |assertions| && key == Subject(assertions[k], norm) && Asserted(assertions, norm)[key] == norm(assertions[k].value)
  {
    hide Subject;
    if assertions != [] {
      var init, last := assertions[..|assertions| - 1], assertions[|assertions| - 1];
      AssertedSomewhere(init, norm);
      forall key | key in Asserted(assertions, norm)
        ensures exists k :: 0 <= k < |assertions| && key == Subject(assertions[k], norm) && Asserted(assertions, norm)[key] == norm(assertions[k].value)
      {
        if key != Subject(last, norm) {
          var k :| 0 <= k < |init| && key == Subject(init[k], norm) && Asserted(init, norm)[key] == norm(init[k].value);
          assert assertions[k] == init[k];
        } else {
          assert assertions[|assertions| - 1] == last;
        }
      }
    }
  }

  /** With consistent assertions before it, an assertion contradicts what is remembered exactly when it disagrees with one of them. */
  lemma {:induction false} ContradictsOne(init: seq<Assertion>, last: Assertion, norm: string -> string)
    requires Consistent(init, norm)
    ensures Contradicts(Asserted(init, norm), last, norm) <==> exists k :: 0 <= k < |init| && !Agree(init[k], last, norm)
  {
    hide Subject, Asserted;
    AssertedSomewhere(init, norm);
    var key := Subject(last, norm);
    if key in Asserted(init, norm) {
      var k :| 0 <= k < |init| && key == Subject(init[k], norm) && Asserted(init, norm)[key] == norm(init[k].value);
      forall j | 0 <= j < |init| && Subject(init[j], norm) == key ensures norm(init[j].value) == norm(init[k].value) {
        assert Agree(init[if j < k then j else k], init[if j < k then k else j], norm) || j == k;
      }
    }
  }

  lemma {:induction false} ContradictionsAreFound(assertions: seq<Assertion>, norm: string -> string)
    ensures ContradictionReasons(assertions, norm) == [] <==> Consistent(assertions, norm)
  {
    if assertions != [] {
      hide Subject, Asserted, Contradicts, Agree;
      var init, last := assertions[..|assertions| - 1], assertions[|assertions| - 1];
      ContradictionsAreFound(init, norm);
      assert forall k | 0 <= k < |init| :: init[k] == assertions[k];
      if Consistent(init, norm) {
        ContradictsOne(init, last, norm);
      }
    }
  }

  /** The document asked for is the expected one, or the arithmetic answer is the value. */
  ghost predicate ContractMet(judge: Judge, request: Request, text: string)
    requires request.validation.Some?
  {
    match request.validation.value
    case Arithmetic(e) => judge.calculate(e).Some? && judge.numeric(text) == judge.calculate(e)
    case ReferenceJson(expected) => exists r :: Reading(judge, text) == Some(r) && r.value == expected
    case _ => judge.other(request, text).0 == Some(true) && judge.other(request, text).1 == []
  }

  /**
   Exactly what an accepted answer is: whole, in shape, honestly cited, not contradicting
   itself, matching its contract if it has one, covered by a validator and not withheld by
   a source policy.
   */
  lemma {:induction false} AcceptedExactly(judge: Judge, request: Request, profile: Profile, response: Response, review: Review)
    ensures Acceptable(ReportOf(judge, request, profile, response, review), profile) <==>
              && !Blank(response.text) && response.finish == "stop"
              && (request.schema.Some? ==> SchemaHolds(judge, request, response.text))
              && CitationsHold(response.citations, request.evidence) && Consistent(response.assertions, judge.norm)
              && (if request.validation.Some? then ContractMet(judge, request, response.text) && profile.minimum <= 100.0
                  else request.schema.Some? && profile.minimum <= STRUCTURE_SCORE)
              && !Unsupported(request, profile) && review != Blocked && review != ServiceFailed
  {
    hide Blank, SchemaHolds, CitationReasons, ContradictionReasons, CitationsHold, Consistent, Reasons, Reading, ProseNote, Distinct;
    NothingWrong(judge, request, profile, response);
    CitationsAreChecked(response.citations, request.evidence);
    ContradictionsAreFound(response.assertions, judge.norm);
    NoneDistinct(Reasons(judge, request, profile, response));
  }

  // ---------- what the words of the gate mean ----------

  lemma {:induction false} QuoteIsFound(text: string, a: string, quote: string, b: string)
    requires text == a + quote + b
    ensures Quotes(text, quote)
  {
    if a == [] {
      assert text[..|quote|] == quote;
    } else {
      assert text[1..] == a[1..] + quote + b;
      QuoteIsFound(text[1..], a[1..], quote, b);
    }
  }

  lemma {:induction false} QuoteSplits(text: string, quote: string) returns (a: string, b: string)
    requires Quotes(text, quote)
    ensures text == a + quote + b
  {
    if quote <= text {
      a, b := "", text[|quote|..];
    } else {
      a, b := QuoteSplits(text[1..], quote);
      a := [text[0]] + a;
    }
  }

  /** A quote stands in a text: something before it, something behind it. */
  lemma {:induction false} QuotesMeans(text: string, quote: string)
    ensures Quotes(text, quote) <==> exists a, b :: text == a + quote + b
  {
    hide Quotes;
    if Quotes(text, quote) {
      var a, b := QuoteSplits(text, quote);
    }
    if a, b :| text == a + quote + b {
      QuoteIsFound(text, a, quote, b);
    }
  }

  /**
   What no validator covers: an answer that must be fresh; one that must be grounded without a
   grounding contract; a capability beyond structured output, and beyond coding under a
   function contract.
   */
  lemma {:induction false} CoveredMeans(request: Request, profile: Profile)
    ensures !Unsupported(request, profile) <==>
              && !request.freshness
              && (profile.requiresGrounding ==> request.validation == Some(GroundedJson) || request.validation == Some(GroundedClaims))
              && forall c <- profile.capabilities :: c == "structured_output" || (c == "coding" && request.validation == Some(PythonFunction))
  {
    var covered := if request.validation == Some(PythonFunction) then {"structured_output", "coding"} else {"structured_output"};
    assert profile.capabilities - covered == {} <==> forall c <- profile.capabilities :: c in covered;
  }

  /** A document in a wrapper of prose has the shape asked for only where a document itself was asked for. */
  lemma {:induction false} ShapeMeans(judge: Judge, request: Request, text: string)
    requires request.schema.Some?
    ensures SchemaHolds(judge, request, text) <==>
              exists r :: Reading(judge, text) == Some(r) && judge.validates(request.schema.value, r.value)
                && (r.wrapper == Prose ==>
                      request.validation == None || request.validation == Some(GroundedJson)
                      || exists expected :: request.validation == Some(ReferenceJson(expected)))
  {
    hide Reading;
    if request.validation.Some? && request.validation.value.ReferenceJson? {
      assert request.validation == Some(ReferenceJson(request.validation.value.expected));
    }
  }

  /** What an acceptable report says: a hundred points and how the contract was checked, or 85 for structure alone. */
  lemma {:induction false} AcceptedReport(judge: Judge, request: Request, profile: Profile, response: Response, review: Review)
    requires Acceptable(ReportOf(judge, request, profile, response, review), profile)
    ensures var report := ReportOf(judge, request, profile, response, review);
            if request.validation.None? then report.score == Some(85.0) && report.state == StructureValidated
            else
              && report.score == Some(100.0)
              && match request.validation.value
                 case Arithmetic(_) => report.state == DeterministicArithmetic
                 case ReferenceJson(_) => report.state == HostReferenceMatch
                 case GroundedJson => report.state == SourceDataMatch
                 case GroundedClaims => report.state == StructuredClaimsSupported
                 case PythonFunction => report.state == BoundedCodeTests
  {
    hide Reasons, ProseNote, Unsupported;
  }
}

/**
 The parts of a streamed Gemini answer, merged before the envelope check reads them
 (fair/providers/live.py, `_merge_parts` and the part rules of `complete`).
 */
module Parts {
  import opened Options
  import opened JsonValues
  import F = Fence

  // ---------- Python's == on parsed JSON ----------

  /** Numbers and booleans by value: True == 1 == 1.0. */
  function Norm(j: Json): Json {
    match j
    case Bool(b) => Float(if b then 1.0 else 0.0)
    case Int(i) => Float(i as real)
    case Arr(items) => Arr(seq(|items|, k requires 0 <= k < |items| => Norm(items[k])))
    case Obj(fields) => Obj(map key | key in fields :: Norm(fields[key]))
    case _ => j
  }

  predicate PyEqual(a: Json, b: Json) { Norm(a) == Norm(b) }

  // ---------- merging ----------

  const TEXT := "text"
  const THOUGHT := "thought"
  const SIGNATURE := "thoughtSignature"

  /** A part's key names without its text, and its thought flag. */
  datatype Signature = Signature(keys: set<string>, thought: Json)

  predicate HasText(p: Json) { p.Obj? && TEXT in p.fields && p.fields[TEXT].Str? }

  function SignatureOf(p: Json): Signature
    requires p.Obj?
  {
    Signature(p.fields.Keys - {TEXT}, if THOUGHT in p.fields then p.fields[THOUGHT] else Bool(false))
  }

  predicate SameSignature(a: Signature, b: Signature) { a.keys == b.keys && PyEqual(a.thought, b.thought) }

  /** Whether `p` is merged into a neighbour `a` before it. */
  predicate Joins(a: Json, p: Json) {
    a.Obj? && HasText(p) && SameSignature(SignatureOf(a), SignatureOf(p))
  }

  /** `a.get("text", "") + text`; None is the TypeError. */
  function Extended(a: Json, text: string): Option<Json>
    requires a.Obj?
  {
    if TEXT !in a.fields then Some(Obj(a.fields[TEXT := Str("" + text)]))
    else if a.fields[TEXT].Str? then Some(Obj(a.fields[TEXT := Str(a.fields[TEXT].s + text)]))
    else None
  }

  function Add(merged: seq<Json>, p: Json): Option<seq<Json>> {
    if merged != [] && Joins(merged[|merged| - 1], p) then
      var last := Extended(merged[|merged| - 1], p.fields[TEXT].s);
      if last.None? then None else Some(merged[..|merged| - 1] + [last.value])
    else Some(merged + [p])
  }

  function Merge(parts: seq<Json>): Option<seq<Json>> {
    if parts == [] then Some([])
    else
      var before := Merge(parts[..|parts| - 1]);
      if before.None? then None else Add(before.value, parts[|parts| - 1])
  }

  type Held = (Option<Signature>, Json)

  /** The parts held, without the signatures kept beside them. */
  function Items(held: seq<Held>): seq<Json> {
    if held == [] then [] else Items(held[..|held| - 1]) + [held[|held| - 1].1]
  }

  ghost predicate Remembered(held: seq<Held>) {
    forall k | 0 <= k < |held| :: held[k].0 == if held[k].1.Obj? then Some(SignatureOf(held[k].1)) else None
  }

  lemma {:induction false} ItemsMore(held: seq<Held>, h: Held)
    ensures Items(held + [h]) == Items(held) + [h.1]
  {
    assert (held + [h])[..|held|] == held;
  }

  lemma {:induction false} ItemsLast(held: seq<Held>)
    requires held != []
    ensures Items(held) != [] && Items(held)[|Items(held)| - 1] == held[|held| - 1].1
    ensures Items(held)[..|Items(held)| - 1] == Items(held[..|held| - 1])
  {
  }

  /** The loop of the source; a part that is no object carries no signature and joins nothing. */
  method MergeParts(parts: seq<Json>) returns (r: Option<seq<Json>>)
    ensures r == Merge(parts)
  {
    hide PyEqual, Items, HasText, Extended, Merge;
    var merged: seq<Held> := [];
    StartMerging(parts);
    for i := 0 to |parts|
      invariant Merge(parts[..i]) == Some(Items(merged))
      invariant Remembered(merged)
    {
      var part := parts[i];
      MergeNext(parts, i);
      if merged != [] {
        ItemsLast(merged);
      }
      assert merged == [] <==> Items(merged) == [] by {
        SameLength(merged);
      }
      if !part.Obj? {
        ItemsMore(merged, (None, part));
        assert !HasText(part) by {
          NoObject(part);
        }
        merged := merged + [(None, part)];
        continue;
      }
      var signature := SignatureOf(part);
      if merged != [] && merged[|merged| - 1].0.Some? && SameSignature(merged[|merged| - 1].0.value, signature) && HasText(part) {
        var last := merged[|merged| - 1];
        TextRead(part);
        var extended := Extended(last.1, part.fields[TEXT].s);
        if extended.None? {
          MergeStops(parts, i + 1);
          return None;
        }
        SignatureKept(last.1, part.fields[TEXT].s);
        ItemsMore(merged[..|merged| - 1], (last.0, extended.value));
        merged := merged[..|merged| - 1] + [(last.0, extended.value)];
        continue;
      }
      ItemsMore(merged, (Some(signature), part));
      merged := merged + [(Some(signature), part)];
    }
    assert parts[..|parts|] == parts;
    r := Some(Items(merged));
  }

  lemma {:induction false} StartMerging(parts: seq<Json>)
    ensures Merge(parts[..0]) == Some(Items([]))
  {
  }

  lemma {:induction false} SameLength(held: seq<Held>)
    ensures |Items(held)| == |held|
  {
    if held != [] {
      SameLength(held[..|held| - 1]);
    }
  }

  lemma {:induction false} NoObject(p: Json)
    requires !p.Obj?
    ensures !HasText(p)
  {
  }

  lemma {:induction false} TextRead(p: Json)
    requires HasText(p)
    ensures p.Obj? && TEXT in p.fields && p.fields[TEXT].Str?
  {
  }

  /** Only the text of a part changes. */
  lemma {:induction false} SignatureKept(a: Json, text: string)
    requires a.Obj? && Extended(a, text).Some?
    ensures var e := Extended(a, text).value; HasText(e) && SignatureOf(e) == SignatureOf(a)
  {
  }

  lemma {:induction false} MergeNext(parts: seq<Json>, i: nat)
    requires i < |parts|
    ensures Merge(parts[..i + 1]) == if Merge(parts[..i]).None? then None else Add(Merge(parts[..i]).value, parts[i])
  {
    assert parts[..i + 1][..i] == parts[..i];
  }

  lemma {:induction false} MergeStops(parts: seq<Json>, n: nat)
    requires n <= |parts| && Merge(parts[..n]).None?
    ensures Merge(parts).None?
  {
    if n == |parts| {
      assert parts[..n] == parts;
    } else {
      assert parts[..|parts| - 1][..n] == parts[..n];
      MergeStops(parts[..|parts| - 1], n);
    }
  }

  // ---------- what the envelope reads ----------

  predicate KnownKeys(p: Json) {
    p.Obj? && p.fields.Keys <= {TEXT, THOUGHT, SIGNATURE}
  }

  predicate ThoughtOk(p: Json) {
    p.Obj? && (THOUGHT in p.fields ==> p.fields[THOUGHT].Bool?)
  }

  predicate WellFormed(p: Json) { KnownKeys(p) && HasText(p) && ThoughtOk(p) }

  predicate AllWell(parts: seq<Json>) {
    forall k | 0 <= k < |parts| :: WellFormed(parts[k])
  }

  predicate IsThought(p: Json)
    requires WellFormed(p)
  {
    THOUGHT in p.fields && p.fields[THOUGHT].b
  }

  /** The answer: the text of every part that is no thought. */
  function Answer(parts: seq<Json>): string
    requires AllWell(parts)
  {
    if parts == [] then ""
    else Answer(parts[..|parts| - 1]) + if IsThought(parts[|parts| - 1]) then "" else parts[|parts| - 1].fields[TEXT].s
  }

  /** The thinking: the text of every part that is one. */
  function Thinking(parts: seq<Json>): string
    requires AllWell(parts)
  {
    if parts == [] then ""
    else Thinking(parts[..|parts| - 1]) + if IsThought(parts[|parts| - 1]) then parts[|parts| - 1].fields[TEXT].s else ""
  }

  /** Part `k` joins the one before it. */
  predicate Follows(parts: seq<Json>, k: nat) {
    0 < k < |parts| && Joins(parts[k - 1], parts[k])
  }

  ghost predicate NoneJoins(parts: seq<Json>) {
    forall k: nat | k < |parts| :: !Follows(parts, k)
  }

  lemma {:induction false} JoinsAlike(a: Json, p: Json)
    requires WellFormed(a) && WellFormed(p) && Joins(a, p)
    ensures IsThought(a) == IsThought(p)
    ensures Extended(a, p.fields[TEXT].s).Some? && WellFormed(Extended(a, p.fields[TEXT].s).value)
    ensures IsThought(Extended(a, p.fields[TEXT].s).value) == IsThought(a)
    ensures SignatureOf(Extended(a, p.fields[TEXT].s).value) == SignatureOf(a)
  {
    assert THOUGHT in a.fields.Keys - {TEXT} <==> THOUGHT in p.fields.Keys - {TEXT};
  }

  /** On well-formed parts merging keeps the answer, the thinking and the shape, and leaves nothing to merge. */
  lemma {:induction false} MergeKeepsTheAnswer(parts: seq<Json>)
    requires AllWell(parts)
    ensures Merge(parts).Some?
    ensures var m := Merge(parts).value;
            && AllWell(m) && Answer(m) == Answer(parts) && Thinking(m) == Thinking(parts)
            && NoneJoins(m) && |m| <= |parts| && (m == [] <==> parts == [])
  {
    if parts != [] {
      var init, p := parts[..|parts| - 1], parts[|parts| - 1];
      MergeKeepsTheAnswer(init);
      AddKeeps(Merge(init).value, p);
    }
  }

  lemma {:induction false} AddKeeps(m: seq<Json>, p: Json)
    requires AllWell(m) && NoneJoins(m) && WellFormed(p)
    ensures Add(m, p).Some?
    ensures var n := Add(m, p).value;
            && AllWell(n) && NoneJoins(n) && n != [] && |n| <= |m| + 1
            && Answer(n) == Answer(m) + (if IsThought(p) then "" else p.fields[TEXT].s)
            && Thinking(n) == Thinking(m) + (if IsThought(p) then p.fields[TEXT].s else "")
  {
    if m != [] && Joins(m[|m| - 1], p) {
      assert m == m[..|m| - 1] + [m[|m| - 1]];
      AddJoined(m[..|m| - 1], m[|m| - 1], p);
    } else {
      AnswerMore(m, p);
      NoneJoinsMore(m, p);
    }
  }

  lemma {:induction false} NoneJoinsMore(m: seq<Json>, p: Json)
    requires NoneJoins(m) && (m == [] || !Joins(m[|m| - 1], p))
    ensures NoneJoins(m + [p])
  {
    hide Joins;
    forall k: nat | k < |m + [p]| ensures !Follows(m + [p], k) {
      assert k < |m| ==> !Follows(m, k);
    }
  }

  lemma {:induction false} NoneJoinsLess(m: seq<Json>, p: Json)
    requires NoneJoins(m + [p])
    ensures NoneJoins(m) && (m == [] || !Joins(m[|m| - 1], p))
  {
    hide Joins;
    assert !Follows(m + [p], |m|);
    forall k: nat | k < |m| ensures !Follows(m, k) {
      assert !Follows(m + [p], k);
    }
  }

  lemma {:induction false} AddJoined(init: seq<Json>, last: Json, p: Json)
    requires AllWell(init) && WellFormed(last) && NoneJoins(init + [last]) && WellFormed(p) && Joins(last, p)
    ensures var longer := Extended(last, p.fields[TEXT].s);
            && longer.Some? && WellFormed(longer.value) && AllWell(init + [longer.value]) && NoneJoins(init + [longer.value])
            && AllWell(init + [last])
            && Answer(init + [longer.value]) == Answer(init + [last]) + (if IsThought(p) then "" else p.fields[TEXT].s)
            && Thinking(init + [longer.value]) == Thinking(init + [last]) + (if IsThought(p) then p.fields[TEXT].s else "")
  {
    hide Answer, Thinking, NoneJoins, AllWell, Joins, SignatureOf, KnownKeys, ThoughtOk;
    JoinsAlike(last, p);
    LongerText(last, p);
    var longer := Extended(last, p.fields[TEXT].s).value;
    AnswerMore(init, last);
    AnswerMore(init, longer);
    assert Answer(init) + (last.fields[TEXT].s + p.fields[TEXT].s) == Answer(init) + last.fields[TEXT].s + p.fields[TEXT].s;
    assert Thinking(init) + (last.fields[TEXT].s + p.fields[TEXT].s) == Thinking(init) + last.fields[TEXT].s + p.fields[TEXT].s;
    NoneJoinsLess(init, last);
    if init != [] {
      JoinsSame(init[|init| - 1], last, longer);
    }
    NoneJoinsMore(init, longer);
  }

  lemma {:induction false} LongerText(last: Json, p: Json)
    requires HasText(last) && HasText(p)
    ensures var longer := Extended(last, p.fields[TEXT].s);
            longer.Some? && HasText(longer.value) && longer.value.fields[TEXT].s == last.fields[TEXT].s + p.fields[TEXT].s
  {
  }

  lemma {:induction false} JoinsSame(a: Json, p: Json, q: Json)
    requires HasText(p) && HasText(q) && SignatureOf(p) == SignatureOf(q)
    ensures Joins(a, p) == Joins(a, q)
  {
  }

  lemma {:induction false} AnswerMore(m: seq<Json>, p: Json)
    requires AllWell(m) && WellFormed(p)
    ensures AllWell(m + [p])
    ensures Answer(m + [p]) == Answer(m) + (if IsThought(p) then "" else p.fields[TEXT].s)
    ensures Thinking(m + [p]) == Thinking(m) + (if IsThought(p) then p.fields[TEXT].s else "")
  {
    assert (m + [p])[..|m|] == m;
  }

  /** Parts with nothing to merge are left alone, so merging twice is merging once. */
  lemma {:induction false} NothingToMerge(parts: seq<Json>)
    requires NoneJoins(parts)
    ensures Merge(parts) == Some(parts)
  {
    if parts != [] {
      var init, p := parts[..|parts| - 1], parts[|parts| - 1];
      assert parts == init + [p];
      NoneJoinsLess(init, p);
      NothingToMerge(init);
    }
  }

  // ---------- what merging lets through ----------

  /** A part that only lacks its text. */
  predicate Open(p: Json) { KnownKeys(p) && ThoughtOk(p) && TEXT !in p.fields }

  /** The envelope accepts what becomes of part `i`. */
  predicate Passes(parts: seq<Json>, i: nat)
    requires i < |parts|
  {
    Follows(parts, i) || WellFormed(parts[i]) || (Open(parts[i]) && Follows(parts, i + 1))
  }

  /** The same while more parts may come. */
  predicate PassesYet(parts: seq<Json>, i: nat)
    requires i < |parts|
  {
    Follows(parts, i) || WellFormed(parts[i]) || (Open(parts[i]) && (i + 1 == |parts| || Follows(parts, i + 1)))
  }

  /** Merged parts the envelope would accept, were the last one given its text. */
  predicate Acceptable(merged: Option<seq<Json>>) {
    merged.Some? && var m := merged.value;
    m == [] || (AllWell(m[..|m| - 1]) && (WellFormed(m[|m| - 1]) || Open(m[|m| - 1])))
  }

  /** What the last merged part remembers of the last part read. */
  lemma {:induction false} LastKept(parts: seq<Json>)
    requires parts != [] && Merge(parts).Some?
    ensures var m, p := Merge(parts).value, parts[|parts| - 1];
            && m != [] && m[|m| - 1].Obj? == p.Obj?
            && (p.Obj? ==> SameSignature(SignatureOf(m[|m| - 1]), SignatureOf(p)))
            && (Open(m[|m| - 1]) <==> Open(p) && !Follows(parts, |parts| - 1))
  {
    var init, p := parts[..|parts| - 1], parts[|parts| - 1];
    var m := Merge(init).value;
    hide Norm, KnownKeys, ThoughtOk;
    if init != [] {
      LastKept(init);
      if Joins(m[|m| - 1], p) {
        SignatureKept(m[|m| - 1], p.fields[TEXT].s);
      }
    }
  }

  lemma {:induction false} FollowsBefore(init: seq<Json>, p: Json, k: nat)
    requires k < |init|
    ensures Follows(init + [p], k) == Follows(init, k)
  {
  }

  lemma {:induction false} FollowsLast(init: seq<Json>, p: Json)
    requires Merge(init).Some?
    ensures var m := Merge(init).value;
            (m == [] <==> init == []) && (Follows(init + [p], |init|) <==> m != [] && Joins(m[|m| - 1], p))
  {
    hide Norm;
    if init != [] {
      LastKept(init);
    }
  }

  lemma {:induction false} PassesMore(init: seq<Json>, p: Json, i: nat)
    requires i < |init|
    ensures PassesYet(init + [p], i) ==> PassesYet(init, i)
    ensures i + 1 < |init| || Follows(init + [p], |init|) ==> PassesYet(init + [p], i) == PassesYet(init, i)
    ensures i + 1 == |init| && !Follows(init + [p], |init|) ==>
              (PassesYet(init + [p], i) <==> PassesYet(init, i) && !(Open(init[i]) && !Follows(init, i)))
  {
    hide Joins, WellFormed;
    FollowsBefore(init, p, i);
    if i + 1 < |init| {
      FollowsBefore(init, p, i + 1);
    }
    OpenIsNotWell(init[i]);
  }

  lemma {:induction false} OpenIsNotWell(p: Json)
    ensures Open(p) ==> !WellFormed(p)
  {
  }

  lemma {:induction false} ExtendedIsWell(a: Json, text: string)
    requires a.Obj?
    ensures Extended(a, text).Some? ==> (WellFormed(Extended(a, text).value) <==> WellFormed(a) || Open(a)) && !Open(Extended(a, text).value)
    ensures Extended(a, text).None? ==> !WellFormed(a) && !Open(a)
  {
  }

  lemma {:induction false} AllWellMore(m: seq<Json>, p: Json)
    ensures AllWell(m + [p]) <==> AllWell(m) && WellFormed(p)
  {
    assert (m + [p])[|m|] == p;
    assert forall k | 0 <= k < |m| :: (m + [p])[k] == m[k];
  }

  ghost predicate AllPassYet(parts: seq<Json>) {
    forall i: nat | i < |parts| :: PassesYet(parts, i)
  }

  /** A part left open passes only if the next one joins it. */
  predicate LeftOpen(parts: seq<Json>) {
    parts != [] && Open(parts[|parts| - 1]) && !Follows(parts, |parts| - 1)
  }

  lemma {:induction false} AllPassMore(init: seq<Json>, p: Json)
    ensures AllPassYet(init + [p]) <==>
              && AllPassYet(init) && PassesYet(init + [p], |init|)
              && (Follows(init + [p], |init|) || !LeftOpen(init))
  {
    hide PassesYet, Follows;
    var parts := init + [p];
    forall i: nat | i < |init|
      ensures PassesYet(parts, i) ==> PassesYet(init, i)
      ensures i + 1 < |init| || Follows(parts, |init|) ==> PassesYet(parts, i) == PassesYet(init, i)
      ensures i + 1 == |init| && !Follows(parts, |init|) ==> (PassesYet(parts, i) <==> PassesYet(init, i) && !LeftOpen(init))
    {
      PassesMore(init, p, i);
    }
    assert AllPassYet(parts) ==> PassesYet(parts, |init|) && (init != [] ==> PassesYet(parts, |init| - 1));
    assert AllPassYet(init) && PassesYet(parts, |init|) && (Follows(parts, |init|) || !LeftOpen(init)) ==>
        forall i: nat | i < |parts| :: PassesYet(parts, i);
  }

  lemma {:induction false} AcceptableYet(parts: seq<Json>)
    ensures Acceptable(Merge(parts)) <==> AllPassYet(parts)
  {
    if parts != [] {
      hide Acceptable, AllPassYet, LeftOpen;
      var init, p := parts[..|parts| - 1], parts[|parts| - 1];
      assert parts == init + [p];
      AcceptableYet(init);
      AllPassMore(init, p);
      if Merge(init).Some? {
        AcceptableStep(init, p);
      } else {
        Unacceptable(init);
        Unacceptable(parts);
      }
    }
  }

  lemma {:induction false} Unacceptable(parts: seq<Json>)
    requires Merge(parts).None?
    ensures !Acceptable(Merge(parts))
  {
  }

  lemma {:induction false} AcceptableStep(init: seq<Json>, p: Json)
    requires Merge(init).Some?
    ensures Acceptable(Merge(init + [p])) <==>
              && Acceptable(Merge(init)) && PassesYet(init + [p], |init|)
              && (Follows(init + [p], |init|) || !LeftOpen(init))
  {
    hide WellFormed, Open, Norm, Joins, Acceptable, AllWell, Extended;
    MergeMore(init, p);
    var m := Merge(init).value;
    FollowsLast(init, p);
    if Follows(init + [p], |init|) {
      var head, last := m[..|m| - 1], m[|m| - 1];
      assert m == head + [last];
      JoinsNeeds(last, p);
      var longer := Extended(last, p.fields[TEXT].s);
      ExtendedIsWell(last, p.fields[TEXT].s);
      AcceptableLast(head, last);
      if longer.Some? {
        AcceptableLast(head, longer.value);
      } else {
        Unacceptable(init + [p]);
      }
    } else {
      AcceptableLast(m, p);
      if init != [] {
        LastKept(init);
        assert m == m[..|m| - 1] + [m[|m| - 1]];
        AcceptableLast(m[..|m| - 1], m[|m| - 1]);
        AllWellMore(m[..|m| - 1], m[|m| - 1]);
        OpenIsNotWell(m[|m| - 1]);
      } else {
        NothingMerged();
      }
    }
  }

  lemma {:induction false} NothingMerged()
    ensures Merge([]) == Some([]) && Acceptable(Some([])) && AllWell([])
  {
  }

  lemma {:induction false} AcceptableLast(m: seq<Json>, p: Json)
    ensures Acceptable(Some(m + [p])) <==> AllWell(m) && (WellFormed(p) || Open(p))
  {
    assert (m + [p])[..|m|] == m;
  }

  lemma {:induction false} JoinsNeeds(a: Json, p: Json)
    requires Joins(a, p)
    ensures a.Obj? && HasText(p)
  {
  }

  /**
   Exactly when the envelope finds the merged parts well formed: each part is well formed,
   or follows a neighbour it joins, or lacks its text and is followed by one that brings it.
   */
  lemma {:induction false} MergedIsWellFormed(parts: seq<Json>)
    ensures Merge(parts).Some? && AllWell(Merge(parts).value) <==> forall i: nat | i < |parts| :: Passes(parts, i)
  {
    hide WellFormed, Norm, Joins, KnownKeys, ThoughtOk;
    AcceptableYet(parts);
    if parts != [] {
      var last := |parts| - 1;
      assert Passes(parts, last) <==> PassesYet(parts, last) && !(Open(parts[last]) && !Follows(parts, last)) by {
        OpenIsNotWell(parts[last]);
      }
      assert forall i: nat | i < last :: Passes(parts, i) == PassesYet(parts, i);
      if Merge(parts).Some? {
        LastKept(parts);
        var m := Merge(parts).value;
        OpenIsNotWell(m[|m| - 1]);
        AllWellMore(m[..|m| - 1], m[|m| - 1]);
        assert m == m[..|m| - 1] + [m[|m| - 1]];
      }
    }
  }

  // ---------- the whole envelope ----------

  const MAX_PARTS := 4096

  /** What `complete` asks of a part list: its size, each part, and an answer that is not blank. */
  ghost predicate EnvelopeAccepts(parts: seq<Json>) {
    1 <= |parts| <= MAX_PARTS && AllWell(parts) && !F.Blank(Answer(parts))
  }

  /** The thought flag is true, or a number equal to true. */
  predicate Thinks(p: Json) { p.Obj? && THOUGHT in p.fields && PyEqual(p.fields[THOUGHT], Bool(true)) }

  /** The text of any part that is no thought; a part without text says nothing. */
  function Words(p: Json): string { if HasText(p) && !Thinks(p) then p.fields[TEXT].s else "" }

  function Spoken(parts: seq<Json>): string {
    if parts == [] then "" else Spoken(parts[..|parts| - 1]) + Words(parts[|parts| - 1])
  }

  /** How many runs of parts join. */
  function Runs(parts: seq<Json>): nat {
    if parts == [] then 0
    else Runs(parts[..|parts| - 1]) + if Follows(parts, |parts| - 1) then 0 else 1
  }

  lemma {:induction false} SpokenMore(m: seq<Json>, p: Json)
    ensures Spoken(m + [p]) == Spoken(m) + Words(p)
  {
    assert (m + [p])[..|m|] == m;
  }

  lemma {:induction false} WordsJoined(a: Json, p: Json)
    requires Joins(a, p) && Extended(a, p.fields[TEXT].s).Some?
    ensures Words(Extended(a, p.fields[TEXT].s).value) == Words(a) + Words(p)
  {
    hide Norm;
    var e := Extended(a, p.fields[TEXT].s).value;
    assert THOUGHT in a.fields.Keys - {TEXT} <==> THOUGHT in p.fields.Keys - {TEXT};
    assert Thinks(a) == Thinks(p) == Thinks(e);
  }

  /** Merging, where it does not stop, keeps what is spoken, and makes one part of each run. */
  lemma {:induction false} MergeKeepsWords(parts: seq<Json>)
    requires Merge(parts).Some?
    ensures Spoken(Merge(parts).value) == Spoken(parts) && |Merge(parts).value| == Runs(parts)
  {
    if parts != [] {
      hide Joins, Words, Extended;
      var init, p := parts[..|parts| - 1], parts[|parts| - 1];
      assert parts == init + [p];
      MergeKeepsWords(init);
      FollowsLast(init, p);
      WordsAdded(Merge(init).value, p);
    }
  }

  lemma {:induction false} WordsAdded(m: seq<Json>, p: Json)
    requires Add(m, p).Some?
    ensures Spoken(Add(m, p).value) == Spoken(m) + Words(p)
    ensures |Add(m, p).value| == |m| + if m != [] && Joins(m[|m| - 1], p) then 0 else 1
  {
    hide Joins, Words, Spoken, HasText;
    if m != [] && Joins(m[|m| - 1], p) {
      var init, last := m[..|m| - 1], m[|m| - 1];
      JoinsNeeds(last, p);
      WordsJoined(last, p);
      assert m == init + [last];
      SpokenMore(init, last);
      SpokenMore(init, Extended(last, p.fields[TEXT].s).value);
      assert Spoken(init) + (Words(last) + Words(p)) == Spoken(init) + Words(last) + Words(p);
    } else {
      SpokenMore(m, p);
    }
  }

  lemma {:induction false} AnswerIsSpoken(parts: seq<Json>)
    requires AllWell(parts)
    ensures Answer(parts) == Spoken(parts)
  {
    if parts != [] {
      AnswerIsSpoken(parts[..|parts| - 1]);
      assert WellFormed(parts[|parts| - 1]);
    }
  }

  /**
   Exactly when the envelope accepts the merged parts, in terms of the parts received: each
   is well formed, or joins a neighbour, or lacks only its text and is joined by the next;
   there are between one and 4096 runs; and what is spoken is not blank.
   */
  lemma {:induction false} MergedIsAccepted(parts: seq<Json>)
    ensures Merge(parts).Some? && EnvelopeAccepts(Merge(parts).value) <==>
              && (forall i: nat | i < |parts| :: Passes(parts, i))
              && 1 <= Runs(parts) <= MAX_PARTS && !F.Blank(Spoken(parts))
  {
    hide Merge, Passes, Runs, Spoken, AllWell, Answer;
    MergedIsWellFormed(parts);
    if Merge(parts).Some? {
      MergeKeepsWords(parts);
      if AllWell(Merge(parts).value) {
        AnswerIsSpoken(Merge(parts).value);
      }
    }
  }

  /** A part without text, refused on its own, is let through once the next one joins it. */
  lemma {:induction false} MergingRepairs()
    ensures var a, b := Obj(map[]), Obj(map[TEXT := Str("x")]);
            !WellFormed(a) && Merge([a, b]).Some? && AllWell(Merge([a, b]).value)
  {
    var a, b := Obj(map[]), Obj(map[TEXT := Str("x")]);
    assert SignatureOf(a) == SignatureOf(b);
    assert Follows([a, b], 1);
    MergedIsWellFormed([a, b]);
  }

  /** A thought flag that is a number is let through behind a true boolean. */
  lemma {:induction false} MergingHidesAFlag()
    ensures var a, b := Obj(map[TEXT := Str("x"), THOUGHT := Bool(true)]), Obj(map[TEXT := Str("y"), THOUGHT := Int(1)]);
            !WellFormed(b) && Merge([a, b]).Some? && AllWell(Merge([a, b]).value)
  {
    var a, b := Obj(map[TEXT := Str("x"), THOUGHT := Bool(true)]), Obj(map[TEXT := Str("y"), THOUGHT := Int(1)]);
    assert Norm(Bool(true)) == Norm(Int(1));
    assert SignatureOf(a).keys == SignatureOf(b).keys;
    assert Follows([a, b], 1);
    MergedIsWellFormed([a, b]);
  }

  // ---------- what a part declares ----------

  /** Everything a part says besides its text. */
  function Rest(p: Json): map<string, Json> {
    if p.Obj? then p.fields - {TEXT} else map[]
  }

  /** Which merged part holds part `i`. */
  function RunOf(parts: seq<Json>, i: nat): nat
    requires i < |parts|
  {
    if i == 0 then 0 else RunOf(parts, i - 1) + if Follows(parts, i) then 0 else 1
  }

  /** The first part of the run that part `i` is in. */
  function HeadOf(parts: seq<Json>, i: nat): (h: nat)
    requires i < |parts|
    ensures h <= i
  {
    if Follows(parts, i) then HeadOf(parts, i - 1) else i
  }

  lemma {:induction false} RunsBefore(init: seq<Json>, p: Json, i: nat)
    requires i < |init|
    ensures RunOf(init + [p], i) == RunOf(init, i) && HeadOf(init + [p], i) == HeadOf(init, i)
  {
    FollowsBefore(init, p, i);
    if i > 0 {
      RunsBefore(init, p, i - 1);
    }
  }

  /** Merged part `RunOf(parts, i)` says what the first part of the run of part `i` says. */
  ghost predicate SaysHead(parts: seq<Json>, m: seq<Json>, i: nat)
    requires i < |parts|
  {
    RunOf(parts, i) < |m| && Rest(m[RunOf(parts, i)]) == Rest(parts[HeadOf(parts, i)])
  }

  lemma {:induction false} RunKeepsItsHead(parts: seq<Json>)
    requires Merge(parts).Some?
    ensures var m := Merge(parts).value;
            && (parts != [] ==> m != [] && RunOf(parts, |parts| - 1) == |m| - 1)
            && forall i: nat | i < |parts| :: SaysHead(parts, m, i)
  {
    if parts != [] {
      var init, p := parts[..|parts| - 1], parts[|parts| - 1];
      assert parts == init + [p];
      RunKeepsItsHead(init);
      LastRun(init, p);
      forall i: nat | i < |init| ensures SaysHead(parts, Merge(parts).value, i) {
        RunMore(init, p, i);
      }
    }
  }

  lemma {:induction false} LastRun(init: seq<Json>, p: Json)
    requires Merge(init + [p]).Some? && Merge(init).Some?
    requires init != [] ==> Merge(init).value != [] && RunOf(init, |init| - 1) == |Merge(init).value| - 1
    requires init != [] ==> SaysHead(init, Merge(init).value, |init| - 1)
    ensures var n := Merge(init + [p]).value;
            n != [] && RunOf(init + [p], |init|) == |n| - 1 && SaysHead(init + [p], n, |init|)
  {
    hide Joins, Rest, Extended;
    assert (init + [p])[..|init|] == init;
    var m := Merge(init).value;
    FollowsLast(init, p);
    if init != [] {
      RunsBefore(init, p, |init| - 1);
    }
    if Follows(init + [p], |init|) {
      RestKept(m[|m| - 1], p);
    }
  }

  lemma {:induction false} RunMore(init: seq<Json>, p: Json, i: nat)
    requires Merge(init + [p]).Some? && Merge(init).Some? && i < |init| && SaysHead(init, Merge(init).value, i)
    ensures SaysHead(init + [p], Merge(init + [p]).value, i)
  {
    hide Joins, Rest, Add, RunOf, HeadOf;
    MergeMore(init, p);
    AddKeepsRest(Merge(init).value, p);
    RunsBefore(init, p, i);
  }

  /** Adding a part changes no more than the text of a merged one. */
  lemma {:induction false} AddKeepsRest(m: seq<Json>, p: Json)
    requires Add(m, p).Some?
    ensures var n := Add(m, p).value; |m| <= |n| && forall j | 0 <= j < |m| :: Rest(n[j]) == Rest(m[j])
  {
    if m != [] && Joins(m[|m| - 1], p) {
      RestKept(m[|m| - 1], p);
    }
  }

  lemma {:induction false} MergeMore(init: seq<Json>, p: Json)
    ensures Merge(init + [p]) == if Merge(init).None? then None else Add(Merge(init).value, p)
  {
    assert (init + [p])[..|init|] == init;
  }

  lemma {:induction false} RestKept(a: Json, p: Json)
    requires Joins(a, p)
    ensures var e := Extended(a, p.fields[TEXT].s); e.Some? ==> Rest(e.value) == Rest(a)
  {
  }

  /** Nothing a part declares is lost exactly when every part that joins declares what its neighbour does. */
  lemma {:induction false} NothingIsLost(parts: seq<Json>)
    requires Merge(parts).Some?
    ensures forall i: nat | i < |parts| :: RunOf(parts, i) < |Merge(parts).value|
    ensures (forall i: nat | i < |parts| :: Rest(Merge(parts).value[RunOf(parts, i)]) == Rest(parts[i]))
        <==> (forall i: nat | Follows(parts, i) :: Rest(parts[i - 1]) == Rest(parts[i]))
  {
    hide Joins, Rest, Merge, HeadOf;
    RunKeepsItsHead(parts);
    var m := Merge(parts).value;
    assert forall i: nat | i < |parts| :: SaysHead(parts, m, i) ==> RunOf(parts, i) < |m|;
    if forall i: nat | Follows(parts, i) :: Rest(parts[i - 1]) == Rest(parts[i]) {
      forall i: nat | i < |parts| ensures Rest(m[RunOf(parts, i)]) == Rest(parts[i]) {
        HeadSaysAll(parts, i);
        assert SaysHead(parts, m, i);
      }
    } else {
      var i: nat :| Follows(parts, i) && Rest(parts[i - 1]) != Rest(parts[i]);
      assert RunOf(parts, i) == RunOf(parts, i - 1);
    }
  }

  lemma {:induction false} HeadSaysAll(parts: seq<Json>, i: nat)
    requires i < |parts| && forall k: nat | Follows(parts, k) :: Rest(parts[k - 1]) == Rest(parts[k])
    ensures Rest(parts[HeadOf(parts, i)]) == Rest(parts[i])
  {
    hide Joins, Rest;
    if Follows(parts, i) {
      HeadSaysAll(parts, i - 1);
    }
  }

  lemma {:induction false} MergeTwo(a: Json, b: Json)
    ensures Merge([a, b]) == Add([a], b)
  {
    hide Add;
    MergeMore([], a);
    MergeMore([a], b);
    assert [] + [a] == [a] && [a] + [b] == [a, b];
    AddFirst(a);
  }

  lemma {:induction false} AddFirst(a: Json)
    ensures Add([], a) == Some([a])
  {
    assert [] + [a] == [a];
  }

  /** The signature of a second thought is dropped when it joins the first. */
  lemma {:induction false} ASignatureIsLost(first: string, second: string)
    requires first != second
    ensures var a, b := Obj(map[TEXT := Str("x"), SIGNATURE := Str(first)]), Obj(map[TEXT := Str("y"), SIGNATURE := Str(second)]);
            && AllWell([a, b]) && Merge([a, b]) == Some([Obj(map[TEXT := Str("xy"), SIGNATURE := Str(first)])])
  {
    hide Norm;
    var a, b := Obj(map[TEXT := Str("x"), SIGNATURE := Str(first)]), Obj(map[TEXT := Str("y"), SIGNATURE := Str(second)]);
    assert SignatureOf(a).keys == SignatureOf(b).keys == {SIGNATURE};
    MergeTwo(a, b);
    var longer := Obj(a.fields[TEXT := Str("xy")]);
    assert "x" + "y" == "xy";
    assert [a][..0] + [longer] == [longer];
    assert longer.fields == map[TEXT := Str("xy"), SIGNATURE := Str(first)];
  }
}

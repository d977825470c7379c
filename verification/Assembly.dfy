/**
 A streamed chat completion put together from its chunks (fair/providers/live.py,
 `_stream_json`): the envelope a buffered answer would have had.
 */
module Assembly {
  import opened Options
  import opened JsonValues

  /** `value.get(key)` */
  function Get(value: Json, key: string): Json
    requires value.Obj?
  {
    if key in value.fields then value.fields[key] else Null
  }

  predicate Falsy(value: Json) {
    match value
    case Null => true
    case Bool(b) => !b
    case Int(i) => i == 0
    case Float(r) => r == 0.0
    case Str(s) => s == ""
    case Arr(items) => items == []
    case Obj(fields) => fields == map[]
  }

  function Text(value: Json): Option<string> { if value.Str? then Some(value.s) else None }

  // ---------- one chunk ----------

  predicate HasChoice(chunk: Json)
    requires chunk.Obj?
  {
    !Falsy(Get(chunk, "choices"))
  }

  /** Whether the code goes on after this chunk, its model aside. */
  predicate Readable(chunk: Json) {
    chunk.Obj? &&
    (HasChoice(chunk) ==>
       var choices := Get(chunk, "choices");
       && choices.Arr? && |choices.items| == 1 && choices.items[0].Obj?
       && var delta := Get(choices.items[0], "delta");
          Falsy(delta) || (delta.Obj? && Falsy(Get(delta, "tool_calls")) && Falsy(Get(delta, "function_call"))))
  }

  function Choice(chunk: Json): (c: Json)
    requires Readable(chunk)
    ensures c.Obj?
  {
    if HasChoice(chunk) then Get(chunk, "choices").items[0] else Obj(map[])
  }

  /** `choice.get("delta") or {}` */
  function Delta(chunk: Json): (d: Json)
    requires Readable(chunk)
    ensures d.Obj?
  {
    var delta := Get(Choice(chunk), "delta");
    if Falsy(delta) then Obj(map[]) else delta
  }

  function Model(chunk: Json): Option<string>
    requires chunk.Obj?
  {
    Text(Get(chunk, "model"))
  }

  function Piece(chunk: Json): Option<string>
    requires Readable(chunk)
  {
    Text(Get(Delta(chunk), "content"))
  }

  // ---------- all of them ----------

  datatype Envelope = Envelope(model: Option<string>, role: string, content: Option<string>, finish: Option<string>, usage: Option<Json>)

  datatype Result = Assembled(envelope: Envelope) | Invalid | Inconsistent

  const START := Envelope(None, "assistant", None, None, None)

  function Newer<T>(before: Option<T>, news: Option<T>): Option<T> { if news.Some? then news else before }

  function Longer(content: Option<string>, piece: Option<string>): Option<string> {
    if piece.None? then content else Some((if content.Some? then content.value else "") + piece.value)
  }

  function Take(e: Envelope, chunk: Json): Result {
    if !chunk.Obj? then Invalid
    else if Model(chunk).Some? && e.model.Some? && Model(chunk) != e.model then Inconsistent
    else if !Readable(chunk) then Invalid
    else
      var usage := Get(chunk, "usage");
      Assembled(Envelope(
        Newer(e.model, Model(chunk)),
        Newer(Some(e.role), Text(Get(Delta(chunk), "role"))).value,
        Longer(e.content, Piece(chunk)),
        Newer(e.finish, Text(Get(Choice(chunk), "finish_reason"))),
        Newer(e.usage, if usage.Obj? then Some(usage) else None)))
  }

  function TakeAll(e: Envelope, chunks: seq<Json>): Result
    decreases |chunks|
  {
    if chunks == [] then Assembled(e)
    else
      var next := Take(e, chunks[0]);
      if next.Assembled? then TakeAll(next.envelope, chunks[1..]) else next
  }

  /** The loop of the source, chunk by chunk. */
  method Assemble(chunks: seq<Json>) returns (r: Result)
    ensures r == TakeAll(START, chunks)
  {
    hide Readable, Falsy;
    var model: Option<string>, content: Option<string>, finish: Option<string>, usage: Option<Json> := None, None, None, None;
    var role := "assistant";
    for i := 0 to |chunks|
      invariant TakeAll(START, chunks) == TakeAll(Envelope(model, role, content, finish, usage), chunks[i..])
    {
      var chunk := chunks[i];
      assert chunks[i..][1..] == chunks[i + 1..];
      if !chunk.Obj? {
        return Invalid;
      }
      if Model(chunk).Some? {
        if model.Some? && Model(chunk) != model {
          return Inconsistent;
        }
        model := Model(chunk);
      }
      if !Readable(chunk) {
        return Invalid;
      }
      if Get(chunk, "usage").Obj? {
        usage := Some(Get(chunk, "usage"));
      }
      if Get(Delta(chunk), "role").Str? {
        role := Get(Delta(chunk), "role").s;
      }
      if Piece(chunk).Some? {
        content := Some((if content.Some? then content.value else "") + Piece(chunk).value);
      }
      if Get(Choice(chunk), "finish_reason").Str? {
        finish := Some(Get(Choice(chunk), "finish_reason").s);
      }
    }
    r := Assembled(Envelope(model, role, content, finish, usage));
  }

  // ---------- what an envelope says ----------

  ghost predicate AllReadable(chunks: seq<Json>) {
    forall k | 0 <= k < |chunks| :: Readable(chunks[k])
  }

  /** No two chunks name different models. */
  ghost predicate OneModel(chunks: seq<Json>)
    requires AllReadable(chunks)
  {
    forall i, j | 0 <= i < j < |chunks| && Model(chunks[i]).Some? && Model(chunks[j]).Some? :: Model(chunks[i]) == Model(chunks[j])
  }

  /** All the pieces, in order; None when no chunk carries one. */
  function Pieces(chunks: seq<Json>): Option<string>
    requires AllReadable(chunks)
  {
    if chunks == [] then None else Longer(Pieces(chunks[..|chunks| - 1]), Piece(chunks[|chunks| - 1]))
  }

  lemma {:induction false} TakeAllMore(e: Envelope, a: seq<Json>, b: seq<Json>)
    ensures TakeAll(e, a + b) == var r := TakeAll(e, a); if r.Assembled? then TakeAll(r.envelope, b) else r
    decreases |a|
  {
    hide Take;
    if a == [] {
      assert a + b == b;
    } else {
      assert (a + b)[1..] == a[1..] + b;
      var next := Take(e, a[0]);
      if next.Assembled? {
        TakeAllMore(next.envelope, a[1..], b);
      }
    }
  }

  lemma {:induction false} TakeLast(chunks: seq<Json>)
    requires chunks != []
    ensures var r := TakeAll(START, chunks[..|chunks| - 1]);
            TakeAll(START, chunks) == if r.Assembled? then Take(r.envelope, chunks[|chunks| - 1]) else r
  {
    hide Take;
    var init, last := chunks[..|chunks| - 1], chunks[|chunks| - 1];
    assert chunks == init + [last];
    TakeAllMore(START, init, [last]);
    var r := TakeAll(START, init);
    if r.Assembled? {
      assert [last][1..] == [];
      var next := Take(r.envelope, last);
    }
  }

  /** The envelope names the model of any chunk that names one. */
  ghost predicate Names(e: Envelope, chunks: seq<Json>)
    requires AllReadable(chunks)
  {
    && (e.model.Some? <==> exists k :: 0 <= k < |chunks| && Model(chunks[k]).Some?)
    && (forall k | 0 <= k < |chunks| && Model(chunks[k]).Some? :: Model(chunks[k]) == e.model)
  }

  /**
   An envelope is assembled exactly when every chunk can be read and no two name different
   models; it names that model and its content is the pieces joined.
   */
  lemma {:induction false} AssembledExactly(chunks: seq<Json>)
    ensures TakeAll(START, chunks).Assembled? <==> AllReadable(chunks) && OneModel(chunks)
    ensures TakeAll(START, chunks).Assembled? ==>
              var e := TakeAll(START, chunks).envelope;
              Names(e, chunks) && e.content == Pieces(chunks)
  {
    hide Readable, Model, Piece, Longer;
    if chunks != [] {
      var init, last := chunks[..|chunks| - 1], chunks[|chunks| - 1];
      AssembledExactly(init);
      TakeLast(chunks);
      assert AllReadable(chunks) ==> AllReadable(init) && Readable(last);
      ReadableIsAnObject(last);
      if TakeAll(START, init).Assembled? && Readable(last) {
        assert AllReadable(chunks);
        OneMore(TakeAll(START, init).envelope, init, last);
      }
    }
  }

  lemma {:induction false} ReadableIsAnObject(chunk: Json)
    ensures Readable(chunk) ==> chunk.Obj?
  {
  }

  lemma {:induction false} OneMore(e: Envelope, init: seq<Json>, last: Json)
    requires AllReadable(init) && OneModel(init) && Names(e, init) && Readable(last)
    ensures AllReadable(init + [last])
    ensures OneModel(init + [last]) <==> !(Model(last).Some? && e.model.Some? && Model(last) != e.model)
    ensures OneModel(init + [last]) ==> Names(e.(model := Newer(e.model, Model(last))), init + [last])
  {
    hide Readable, Model;
    var chunks := init + [last];
    forall k | 0 <= k < |chunks| ensures chunks[k].Obj? {
      ReadableIsAnObject(chunks[k]);
    }
    assert chunks[|init|] == last && forall k | 0 <= k < |init| :: chunks[k] == init[k];
    if Model(last).Some? && e.model.Some? && Model(last) != e.model {
      var k :| 0 <= k < |init| && Model(init[k]).Some?;
      assert Model(chunks[k]) != Model(chunks[|init|]);
    }
  }

  // ---------- how the answer is cut ----------

  /** A chunk that carries a piece of the content and nothing else. */
  function Bare(piece: string): Json {
    Obj(map["choices" := Arr([Obj(map["delta" := Obj(map["content" := Str(piece)])])])])
  }

  lemma {:induction false} BareCarries(piece: string)
    ensures Readable(Bare(piece)) && Piece(Bare(piece)) == Some(piece) && Model(Bare(piece)) == None
    ensures Text(Get(Delta(Bare(piece)), "role")) == None && Text(Get(Choice(Bare(piece)), "finish_reason")) == None
    ensures !Get(Bare(piece), "usage").Obj?
  {
    var delta := Obj(map["content" := Str(piece)]);
    assert "content" in delta.fields;
    var choice := Obj(map["delta" := delta]);
    assert "delta" in choice.fields;
    assert Get(Bare(piece), "choices") == Arr([choice]);
    assert Choice(Bare(piece)) == choice;
    assert Delta(Bare(piece)) == delta;
  }

  /**
   Cutting a piece of content into two chunks, anywhere in a stream, changes nothing in
   what is assembled.
   */
  lemma {:induction false} CutsDoNotMatter(before: seq<Json>, a: string, b: string, after: seq<Json>)
    ensures TakeAll(START, before + [Bare(a), Bare(b)] + after) == TakeAll(START, before + [Bare(a + b)] + after)
  {
    hide Take, Bare;
    var two, one := [Bare(a), Bare(b)], [Bare(a + b)];
    TakeAllMore(START, before + two, after);
    TakeAllMore(START, before + one, after);
    TakeAllMore(START, before, two);
    TakeAllMore(START, before, one);
    var r := TakeAll(START, before);
    if r.Assembled? {
      TwoAreOne(r.envelope, a, b);
    }
  }

  lemma {:induction false} TwoAreOne(e: Envelope, a: string, b: string)
    ensures TakeAll(e, [Bare(a), Bare(b)]) == TakeAll(e, [Bare(a + b)])
  {
    hide Readable, Bare;
    BareCarries(a);
    BareCarries(b);
    BareCarries(a + b);
    var start := if e.content.Some? then e.content.value else "";
    assert start + a + b == start + (a + b);
    var first := Take(e, Bare(a)).envelope;
    assert [Bare(a), Bare(b)][1..] == [Bare(b)] && [Bare(b)][1..] == [] && [Bare(a + b)][1..] == [];
    assert TakeAll(first, [Bare(b)]) == Take(first, Bare(b));
    assert TakeAll(e, [Bare(a + b)]) == Take(e, Bare(a + b));
  }

  // ---------- chunks as they are written ----------

  /** A chunk by what it says; None for what it leaves out. */
  datatype Said = Said(model: Option<string>, role: Option<string>, piece: Option<string>, finish: Option<string>, usage: Option<map<string, Json>>)

  function Given(key: string, value: Option<Json>): map<string, Json> { if value.Some? then map[key := value.value] else map[] }

  function AsText(value: Option<string>): Option<Json> { if value.Some? then Some(Str(value.value)) else None }

  function WrittenDelta(s: Said): Json { Obj(Given("role", AsText(s.role)) + Given("content", AsText(s.piece))) }

  function WrittenChoice(s: Said): Json { Obj(map["delta" := WrittenDelta(s)] + Given("finish_reason", AsText(s.finish))) }

  function WrittenChunk(s: Said): Json {
    Obj(Given("model", AsText(s.model)) + Given("usage", if s.usage.Some? then Some(Obj(s.usage.value)) else None)
        + map["choices" := Arr([WrittenChoice(s)])])
  }

  /** The false values of Python. */
  lemma {:induction false} FalsyMeans(value: Json)
    ensures Falsy(value) <==>
              value == Null || value == Bool(false) || value == Int(0) || value == Float(0.0) || value == Str("") || value == Arr([]) || value == Obj(map[])
  {
  }

  function OrNull(value: Option<Json>): Json { if value.Some? then value.value else Null }

  lemma {:induction false} DeltaParts(s: Said)
    ensures Get(WrittenDelta(s), "role") == OrNull(AsText(s.role)) && Get(WrittenDelta(s), "content") == OrNull(AsText(s.piece))
    ensures Get(WrittenDelta(s), "tool_calls") == Get(WrittenDelta(s), "function_call") == Null
  {
    hide AsText;
  }

  lemma {:induction false} ChoiceParts(s: Said)
    ensures Get(WrittenChoice(s), "delta") == WrittenDelta(s) && Get(WrittenChoice(s), "finish_reason") == OrNull(AsText(s.finish))
  {
    hide AsText, WrittenDelta;
  }

  lemma {:induction false} ChunkParts(s: Said)
    ensures Get(WrittenChunk(s), "model") == OrNull(AsText(s.model)) && Get(WrittenChunk(s), "choices") == Arr([WrittenChoice(s)])
    ensures Get(WrittenChunk(s), "usage") == OrNull(if s.usage.Some? then Some(Obj(s.usage.value)) else None)
  {
    hide AsText, WrittenChoice;
  }

  /**
   A written chunk is taken for what it says, unless it names another model: what it gives
   replaces what was given before, its piece goes behind the content, what it leaves out
   changes nothing.
   */
  lemma {:induction false} WrittenIsTaken(e: Envelope, s: Said)
    ensures if s.model.Some? && e.model.Some? && s.model != e.model then Take(e, WrittenChunk(s)) == Inconsistent
            else
              Take(e, WrittenChunk(s)) == Assembled(Envelope(
                if s.model.Some? then s.model else e.model,
                if s.role.Some? then s.role.value else e.role,
                if s.piece.None? then e.content else if e.content.None? then s.piece else Some(e.content.value + s.piece.value),
                if s.finish.Some? then s.finish else e.finish,
                if s.usage.Some? then Some(Obj(s.usage.value)) else e.usage))
  {
    hide WrittenChunk, WrittenChoice, WrittenDelta, Get, Readable, Choice, Delta;
    ChunkParts(s);
    ChoiceParts(s);
    DeltaParts(s);
    DeltaOf(s);
    assert s.piece.Some? ==> "" + s.piece.value == s.piece.value;
  }

  lemma {:induction false} DeltaOf(s: Said)
    ensures WrittenChunk(s).Obj? && Readable(WrittenChunk(s)) && Choice(WrittenChunk(s)) == WrittenChoice(s)
    ensures Get(Delta(WrittenChunk(s)), "role") == Get(WrittenDelta(s), "role")
    ensures Get(Delta(WrittenChunk(s)), "content") == Get(WrittenDelta(s), "content")
  {
    ChunkParts(s);
    ChoiceParts(s);
    DeltaParts(s);
    hide Given;
    assert Get(WrittenChunk(s), "choices").items[0] == WrittenChoice(s);
  }

  /** A list of choices must be one object; what it streams may be absent, and calls no tool. */
  lemma {:induction false} ReadableMeans(chunk: map<string, Json>, choices: seq<Json>, choice: map<string, Json>, delta: map<string, Json>)
    ensures "choices" !in chunk ==> Readable(Obj(chunk))
    ensures |choices| > 1 ==> !Readable(Obj(chunk["choices" := Arr(choices)]))
    ensures "delta" !in choice ==> Readable(Obj(chunk["choices" := Arr([Obj(choice)])]))
    ensures Readable(Obj(chunk["choices" := Arr([Obj(choice["delta" := Obj(delta)])])])) <==>
              && ("tool_calls" in delta ==> Falsy(delta["tool_calls"])) && ("function_call" in delta ==> Falsy(delta["function_call"]))
    ensures choices != [] && !choices[0].Obj? ==> !Readable(Obj(chunk["choices" := Arr(choices)]))
  {
    var one := Obj(chunk["choices" := Arr([Obj(choice["delta" := Obj(delta)])])]);
    assert Get(one, "choices") == Arr([Obj(choice["delta" := Obj(delta)])]);
    assert Get(Obj(choice["delta" := Obj(delta)]), "delta") == Obj(delta);
  }
}

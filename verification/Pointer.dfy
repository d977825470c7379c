/**
 Paths into supplied evidence (fair/quality/grounding.py): JSON Pointer (RFC 6901,
 sections 3 and 4) with a depth and a length budget, and the grounded answer assembled
 from such paths.
 */
module Pointer {
  import opened Options
  import opened JsonValues
  import opened Splitting

  const MAX_POINTER := 512
  const MAX_TOKENS := 20
  const MAX_DIGITS := 8

  // ---------- escapes ----------

  /** `str.replace` of the two characters `a`, `b` by `c`. */
  function Replace(s: string, a: char, b: char, c: char): string {
    if |s| < 2 then s
    else if s[0] == a && s[1] == b then [c] + Replace(s[2..], a, b, c)
    else [s[0]] + Replace(s[1..], a, b, c)
  }

  /** Each `~` is followed by `0` or `1`. */
  predicate WellEscaped(t: string) {
    forall k | 0 <= k < |t| && t[k] == '~' :: k + 1 < |t| && (t[k + 1] == '0' || t[k + 1] == '1')
  }

  /** The key a token names, as the code decodes it: first `~1`, then `~0`. */
  function Decoded(t: string): string { Replace(Replace(t, '~', '1', '/'), '~', '0', '~') }

  /** One scan from left to right. */
  function Unescape(t: string): string {
    if |t| < 2 then t
    else if t[0] == '~' && t[1] == '0' then "~" + Unescape(t[2..])
    else if t[0] == '~' && t[1] == '1' then "/" + Unescape(t[2..])
    else [t[0]] + Unescape(t[1..])
  }

  function Escape(key: string): string {
    if key == [] then []
    else (if key[0] == '~' then "~0" else if key[0] == '/' then "~1" else [key[0]]) + Escape(key[1..])
  }

  lemma {:induction false} Spelled(c: char, rest: string, a: char, b: char, d: char)
    requires rest == [] || c != a || rest[0] != b
    ensures Replace([c] + rest, a, b, d) == [c] + Replace(rest, a, b, d)
  {
    assert ([c] + rest)[1..] == rest;
  }

  lemma {:induction false} StartsWith(s: string, a: char, b: char, c: char)
    requires s != []
    ensures var r := Replace(s, a, b, c); r != [] && (r[0] == s[0] || r[0] == c)
  {
  }

  /** The two replacements are the one scan, on every token. */
  lemma {:induction false} TwoReplacesAreOneScan(t: string)
    ensures Decoded(t) == Unescape(t)
  {
    if |t| >= 2 {
      if t[0] == '~' && (t[1] == '0' || t[1] == '1') {
        TwoReplacesAreOneScan(t[2..]);
        var rest := Replace(t[2..], '~', '1', '/');
        if t[1] == '1' {
          Spelled('/', rest, '~', '0', '~');
        } else {
          assert t[1..] == ['0'] + t[2..];
          Spelled('0', t[2..], '~', '1', '/');
          assert Replace(t, '~', '1', '/') == ['~', '0'] + rest;
          assert (['~', '0'] + rest)[2..] == rest;
        }
      } else {
        TwoReplacesAreOneScan(t[1..]);
        var rest := Replace(t[1..], '~', '1', '/');
        StartsWith(t[1..], '~', '1', '/');
        Spelled(t[0], rest, '~', '0', '~');
      }
    }
  }

  /** In the other order a token would name another key. */
  lemma {:induction false} OrderMatters()
    ensures WellEscaped("~01") && Decoded("~01") == "~1"
    ensures Replace(Replace("~01", '~', '0', '~'), '~', '1', '/') == "/"
  {
    TwoReplacesAreOneScan("~01");
    assert "~01"[2..] == "1";
    assert Unescape("~01") == "~" + Unescape("1");
    assert Replace("~01", '~', '0', '~') == "~" + Replace("1", '~', '0', '~');
  }

  lemma {:induction false} EscapeIsWellFormed(key: string)
    ensures WellEscaped(Escape(key)) && '/' !in Escape(key)
  {
    if key != [] {
      EscapeIsWellFormed(key[1..]);
      var head := if key[0] == '~' then "~0" else if key[0] == '/' then "~1" else [key[0]];
      var rest := Escape(key[1..]);
      assert forall k | 0 <= k < |rest| :: (head + rest)[|head| + k] == rest[k];
    }
  }

  lemma {:induction false} UnescapeEscape(key: string)
    ensures Unescape(Escape(key)) == key
  {
    if key != [] {
      UnescapeEscape(key[1..]);
      var rest := Escape(key[1..]);
      if key[0] == '~' || key[0] == '/' {
        assert Escape(key)[2..] == rest;
      } else {
        assert Escape(key)[1..] == rest;
      }
      assert key == [key[0]] + key[1..];
    }
  }

  lemma {:induction false} TailWellEscaped(t: string, step: nat)
    requires WellEscaped(t) && '/' !in t && step <= |t|
    ensures WellEscaped(t[step..]) && '/' !in t[step..]
  {
    var rest := t[step..];
    assert forall k | 0 <= k < |rest| :: rest[k] == t[step + k];
  }

  lemma {:induction false} EscapeStep(c: char, rest: string)
    ensures Escape([c] + rest) == (if c == '~' then "~0" else if c == '/' then "~1" else [c]) + Escape(rest)
  {
    assert ([c] + rest)[1..] == rest;
  }

  /** Escaping and decoding are each other's inverses: a well-escaped token is the writing of its key. */
  lemma {:induction false} EscapeUnescape(t: string)
    requires WellEscaped(t) && '/' !in t
    ensures Escape(Unescape(t)) == t
  {
    hide Escape;
    if |t| >= 2 {
      var step := if t[0] == '~' then 2 else 1;
      var head := if t[0] != '~' then t[0] else if t[1] == '0' then '~' else '/';
      TailWellEscaped(t, step);
      EscapeUnescape(t[step..]);
      assert t[0] == '~' ==> t[1] == '0' || t[1] == '1';
      assert Unescape(t) == [head] + Unescape(t[step..]);
      EscapeStep(head, Unescape(t[step..]));
      assert t == t[..step] + t[step..];
    } else {
      ShortToken(t);
    }
  }

  lemma {:induction false} ShortToken(t: string)
    requires WellEscaped(t) && '/' !in t && |t| < 2
    ensures Escape(t) == t
  {
    if t != [] {
      EscapeStep(t[0], []);
      assert t == [t[0]] + [];
    }
  }

  // ---------- indices ----------

  predicate Digit(c: char) { '0' <= c <= '9' }

  predicate Digits(s: string) {
    forall k | 0 <= k < |s| :: Digit(s[k])
  }

  /** `0|[1-9][0-9]*` */
  predicate IsIndex(s: string)
    ensures IsIndex(s) ==> Digits(s)
  {
    s == "0" || (s != [] && s[0] != '0' && Digits(s))
  }

  /** `int(s)` on decimal digits. */
  function NumberOf(s: string): nat
    requires Digits(s)
  {
    if s == [] then 0 else 10 * NumberOf(s[..|s| - 1]) + DigitAt(s[|s| - 1])
  }

  function DigitAt(c: char): nat
    requires Digit(c)
    ensures DigitAt(c) < 10
  {
    c as int - '0' as int
  }

  function DigitOf(n: nat): char
    requires n < 10
  {
    ('0' as int + n) as char
  }

  /** A number without leading zeros. */
  function Decimal(n: nat): string {
    if n < 10 then [DigitOf(n)] else Decimal(n / 10) + [DigitOf(n % 10)]
  }

  lemma {:induction false} DecimalIsIndex(n: nat)
    ensures IsIndex(Decimal(n)) && NumberOf(Decimal(n)) == n && (n > 0 ==> Decimal(n)[0] != '0')
  {
    if n < 10 {
      assert Decimal(n)[..0] == [];
    } else {
      DecimalIsIndex(n / 10);
      assert Decimal(n)[..|Decimal(n)| - 1] == Decimal(n / 10);
    }
  }

  lemma {:induction false} IndexIsDecimal(s: string)
    requires IsIndex(s)
    ensures Decimal(NumberOf(s)) == s && (s[0] != '0' ==> NumberOf(s) > 0)
  {
    var init, last := s[..|s| - 1], s[|s| - 1];
    assert DigitOf(DigitAt(last)) == last;
    if |s| == 1 {
      assert init == [] && NumberOf(s) == DigitAt(last);
      assert s == [last];
    } else {
      assert init[0] == s[0] && Digits(init);
      IndexIsDecimal(init);
      assert s == init + [last];
      assert NumberOf(s) / 10 == NumberOf(init);
    }
  }

  // ---------- evaluation ----------

  /** The value one token names inside `v`. */
  function Next(v: Json, token: string): Option<Json> {
    if !WellEscaped(token) then None
    else
      var key := Decoded(token);
      if v.Obj? && key in v.fields then Some(v.fields[key])
      else if v.Arr? && IsIndex(key) && |key| <= MAX_DIGITS && NumberOf(key) < |v.items| then Some(v.items[NumberOf(key)])
      else None
  }

  function Walk(v: Json, tokens: seq<string>): Option<Json> {
    if tokens == [] then Some(v)
    else
      var next := Next(v, tokens[0]);
      if next.None? then None else Walk(next.value, tokens[1..])
  }

  /** What a pointer resolves to; None is the ValueError. */
  function Resolved(v: Json, pointer: string): Option<Json> {
    if pointer == "" then Some(v)
    else if pointer[0] != '/' || |pointer| > MAX_POINTER then None
    else
      var tokens := Split(pointer[1..], '/');
      if |tokens| > MAX_TOKENS then None else Walk(v, tokens)
  }

  method ResolvePointer(value: Json, pointer: string) returns (r: Option<Json>)
    ensures r == Resolved(value, pointer)
  {
    hide Replace, Digits, IsIndex, NumberOf, Split, WellEscaped;
    if pointer == "" {
      return Some(value);
    }
    if pointer[0] != '/' || |pointer| > MAX_POINTER {
      return None;
    }
    var tokens := Split(pointer[1..], '/');
    if |tokens| > MAX_TOKENS {
      return None;
    }
    var v := value;
    for i := 0 to |tokens|
      invariant Walk(value, tokens) == Walk(v, tokens[i..])
    {
      var token := tokens[i];
      assert tokens[i..][0] == token && tokens[i..][1..] == tokens[i + 1..];
      if !WellEscaped(token) {
        return None;
      }
      var key := Replace(Replace(token, '~', '1', '/'), '~', '0', '~');
      if v.Obj? && key in v.fields {
        v := v.fields[key];
      } else if v.Arr? && IsIndex(key) {
        if |key| > MAX_DIGITS || NumberOf(key) >= |v.items| {
          return None;
        }
        v := v.items[NumberOf(key)];
      } else {
        return None;
      }
    }
    r := Some(v);
  }

  // ---------- the paths a pointer stands for ----------

  datatype Step = Member(key: string) | Element(index: nat)

  /** Follow a path, with no strings involved. */
  function Reach(v: Json, path: seq<Step>): Option<Json> {
    if path == [] then Some(v)
    else
      match path[0]
      case Member(key) => if v.Obj? && key in v.fields then Reach(v.fields[key], path[1..]) else None
      case Element(i) => if v.Arr? && i < |v.items| then Reach(v.items[i], path[1..]) else None
  }

  /** The token that writes a step down. */
  function Written(step: Step): string {
    match step
    case Member(key) => Escape(key)
    case Element(i) => Decimal(i)
  }

  function TokensOf(path: seq<Step>): (ts: seq<string>)
    ensures |ts| == |path| && forall k | 0 <= k < |path| :: ts[k] == Written(path[k])
  {
    if path == [] then [] else [Written(path[0])] + TokensOf(path[1..])
  }

  function Render(path: seq<Step>): string {
    if path == [] then "" else "/" + Join(TokensOf(path), '/')
  }

  /** The limits of the code, on a path. */
  predicate Fits(path: seq<Step>) {
    && |path| <= MAX_TOKENS && |Render(path)| <= MAX_POINTER
    && forall step <- path :: step.Element? ==> |Decimal(step.index)| <= MAX_DIGITS
  }

  lemma {:induction false} Unmarked(s: string)
    requires forall k | 0 <= k < |s| :: s[k] != '~' && s[k] != '/'
    ensures Escape(s) == s && WellEscaped(s)
  {
    if s != [] {
      Unmarked(s[1..]);
      assert s == [s[0]] + s[1..];
    }
  }

  lemma {:induction false} DecimalUnmarked(n: nat)
    ensures Unescape(Decimal(n)) == Decimal(n) && WellEscaped(Decimal(n)) && '/' !in Decimal(n)
  {
    DecimalIsIndex(n);
    Unmarked(Decimal(n));
    UnescapeEscape(Decimal(n));
  }

  lemma {:induction false} WrittenIsClean(step: Step)
    ensures WellEscaped(Written(step)) && '/' !in Written(step)
    ensures Decoded(Written(step)) == match step case Member(key) => key case Element(i) => Decimal(i)
  {
    TwoReplacesAreOneScan(Written(step));
    match step
    case Member(key) =>
      EscapeIsWellFormed(key);
      UnescapeEscape(key);
    case Element(i) =>
      DecimalUnmarked(i);
  }

  /** A written path is walked to where it leads. */
  lemma {:induction false} WalkWritten(v: Json, path: seq<Step>)
    requires forall step <- path :: step.Element? ==> |Decimal(step.index)| <= MAX_DIGITS
    requires Reach(v, path).Some?
    ensures Walk(v, TokensOf(path)) == Reach(v, path)
  {
    if path != [] {
      hide Written, Decoded, IsIndex, WellEscaped;
      WrittenIsClean(path[0]);
      var next := match path[0] case Member(key) => v.fields[key] case Element(i) => v.items[i];
      if path[0].Element? {
        DecimalIsIndex(path[0].index);
        assert path[0] in path;
      }
      assert Next(v, Written(path[0])) == Some(next);
      WalkWritten(next, path[1..]);
      assert TokensOf(path)[1..] == TokensOf(path[1..]);
    }
  }

  /** A token that resolves is the writing of one step. */
  lemma {:induction false} StepOf(v: Json, token: string) returns (step: Step)
    requires Next(v, token).Some? && '/' !in token
    ensures Written(step) == token && Reach(v, [step]) == Next(v, token)
    ensures step.Element? ==> |Decimal(step.index)| <= MAX_DIGITS
  {
    var key := Decoded(token);
    TwoReplacesAreOneScan(token);
    EscapeUnescape(token);
    if v.Obj? && key in v.fields {
      step := Member(key);
    } else {
      step := Element(NumberOf(key));
      IndexIsDecimal(key);
      Unmarked(key);
    }
  }

  lemma {:induction false} PathOf(v: Json, tokens: seq<string>) returns (path: seq<Step>)
    requires Walk(v, tokens).Some? && forall t <- tokens :: '/' !in t
    ensures TokensOf(path) == tokens && Reach(v, path) == Walk(v, tokens)
    ensures forall step <- path :: step.Element? ==> |Decimal(step.index)| <= MAX_DIGITS
  {
    path := [];
    if tokens != [] {
      hide Next, Written, Decimal;
      var step := StepOf(v, tokens[0]);
      var next := Next(v, tokens[0]).value;
      var rest := PathOf(next, tokens[1..]);
      path := [step] + rest;
      assert path[1..] == rest && [step][1..] == [];
      assert tokens == [tokens[0]] + tokens[1..];
    }
  }

  /** The pointer written for a path that fits resolves to where the path leads. */
  lemma {:induction false} WrittenPathResolves(v: Json, path: seq<Step>)
    requires Fits(path) && Reach(v, path).Some?
    ensures Resolved(v, Render(path)) == Reach(v, path)
  {
    if path != [] {
      var tokens := TokensOf(path);
      WalkWritten(v, path);
      forall t | t in tokens ensures '/' !in t {
        var k :| 0 <= k < |tokens| && tokens[k] == t;
        WrittenIsClean(path[k]);
      }
      SplitJoin(tokens, '/');
      assert Render(path)[1..] == Join(tokens, '/');
    }
  }

  lemma {:induction false} ResolvedPath(v: Json, pointer: string) returns (path: seq<Step>)
    requires Resolved(v, pointer).Some?
    ensures Fits(path) && Render(path) == pointer && Reach(v, path) == Resolved(v, pointer)
  {
    path := [];
    if pointer != "" {
      PiecesAreClean(pointer[1..], '/');
      path := PathOf(v, Split(pointer[1..], '/'));
      JoinSplit(pointer[1..], '/');
      assert pointer == "/" + pointer[1..];
    }
  }

  /** A pointer resolves exactly to what a path it writes down, within the limits, leads to. */
  lemma {:induction false} ResolvesExactly(v: Json, pointer: string, w: Json)
    ensures Resolved(v, pointer) == Some(w) <==>
              exists path :: Fits(path) && Render(path) == pointer && Reach(v, path) == Some(w)
  {
    hide Resolved, Fits, Render, Reach;
    if Resolved(v, pointer) == Some(w) {
      var path := ResolvedPath(v, pointer);
    }
    forall path | Fits(path) && Render(path) == pointer && Reach(v, path) == Some(w) ensures Resolved(v, pointer) == Some(w) {
      WrittenPathResolves(v, path);
    }
  }

  // ---------- a grounded answer ----------

  datatype Source = Source(id: string, text: string)

  datatype Field = Field(outputKey: string, sourceId: string, pointer: string)

  datatype Grounded = Grounded(answer: map<string, Json>, sources: map<string, (string, string)>)

  /** A later source replaces an earlier one of the same id. */
  function Texts(evidence: seq<Source>): map<string, string> {
    if evidence == [] then map[]
    else Texts(evidence[..|evidence| - 1])[evidence[|evidence| - 1].id := evidence[|evidence| - 1].text]
  }

  /** The value a field's path names in its own source, strictly parsed. */
  function Grounding(f: Field, texts: map<string, string>, parse: string -> Option<Json>): Option<Json> {
    if f.sourceId !in texts || parse(texts[f.sourceId]).None? then None
    else Resolved(parse(texts[f.sourceId]).value, f.pointer)
  }

  /** Field `i` is the last to write its output key. */
  predicate Final(fields: seq<Field>, i: nat) {
    i < |fields| && forall j | i < j < |fields| :: fields[j].outputKey != fields[i].outputKey
  }

  /**
   Every field is grounded or there is no answer; each answered key comes from the source
   and the path recorded beside it.
   */
  method GroundedResult(fields: seq<Field>, evidence: seq<Source>, parse: string -> Option<Json>) returns (r: Option<Grounded>)
    ensures r.Some? <==> forall i | 0 <= i < |fields| :: Grounding(fields[i], Texts(evidence), parse).Some?
    ensures r.Some? ==> forall i | 0 <= i < |fields| :: fields[i].outputKey in r.value.answer && fields[i].outputKey in r.value.sources
    ensures r.Some? ==> forall i: nat | i < |fields| && Final(fields, i) ::
              && r.value.answer[fields[i].outputKey] == Grounding(fields[i], Texts(evidence), parse).value
              && r.value.sources[fields[i].outputKey] == (fields[i].sourceId, fields[i].pointer)
    ensures r.Some? ==> r.value.answer.Keys == r.value.sources.Keys == set i | 0 <= i < |fields| :: fields[i].outputKey
  {
    hide Resolved, Texts, Grounding, Final;
    var texts := SuppliedTexts(evidence);
    var parsed: map<string, Json> := map[];
    var answer, provenance := map[], map[];
    for n := 0 to |fields|
      invariant forall id <- parsed :: id in texts && parse(texts[id]) == Some(parsed[id])
      invariant forall i | 0 <= i < n :: Grounding(fields[i], texts, parse).Some?
      invariant forall i | 0 <= i < n :: fields[i].outputKey in answer && fields[i].outputKey in provenance
      invariant forall i: nat | i < n && Final(fields[..n], i) ::
          && answer[fields[i].outputKey] == Grounding(fields[i], texts, parse).value
          && provenance[fields[i].outputKey] == (fields[i].sourceId, fields[i].pointer)
      invariant answer.Keys == provenance.Keys == set i | 0 <= i < n :: fields[i].outputKey
    {
      var field := fields[n];
      var value;
      value, parsed := GroundField(field, texts, parsed, parse);
      if value.None? {
        return None;
      }
      forall i: nat | i < n + 1 && Final(fields[..n + 1], i) ensures i == n || (i < n && Final(fields[..n], i) && fields[i].outputKey != field.outputKey) {
        StillFinal(fields, n, i);
      }
      answer := answer[field.outputKey := value.value];
      provenance := provenance[field.outputKey := (field.sourceId, field.pointer)];
    }
    assert fields[..|fields|] == fields;
    r := Some(Grounded(answer, provenance));
  }

  lemma {:induction false} StillFinal(fields: seq<Field>, n: nat, i: nat)
    requires n < |fields| && Final(fields[..n + 1], i)
    ensures i == n || (i < n && Final(fields[..n], i) && fields[i].outputKey != fields[n].outputKey)
  {
    assert fields[..n + 1][n] == fields[n];
    assert forall j | 0 <= j < n :: fields[..n][j] == fields[..n + 1][j];
  }

  method SuppliedTexts(evidence: seq<Source>) returns (texts: map<string, string>)
    ensures texts == Texts(evidence)
  {
    texts := map[];
    for n := 0 to |evidence|
      invariant texts == Texts(evidence[..n])
    {
      assert evidence[..n + 1][..n] == evidence[..n];
      texts := texts[evidence[n].id := evidence[n].text];
    }
    assert evidence[..|evidence|] == evidence;
  }

  /** Ground one field; a document is parsed the first time it is needed. */
  method GroundField(field: Field, texts: map<string, string>, parsed: map<string, Json>, parse: string -> Option<Json>)
    returns (value: Option<Json>, known: map<string, Json>)
    requires forall id <- parsed :: id in texts && parse(texts[id]) == Some(parsed[id])
    ensures value == Grounding(field, texts, parse)
    ensures forall id <- known :: id in texts && parse(texts[id]) == Some(known[id])
  {
    known := parsed;
    if field.sourceId !in texts {
      return None, known;
    }
    if field.sourceId !in known {
      var document := parse(texts[field.sourceId]);
      if document.None? {
        return None, known;
      }
      known := known[field.sourceId := document.value];
    }
    value := ResolvePointer(known[field.sourceId], field.pointer);
  }

  /** Of sources with one id the last one's text is read. */
  lemma {:induction false} TextsMeans(evidence: seq<Source>, id: string)
    ensures id in Texts(evidence) <==> exists k :: 0 <= k < |evidence| && evidence[k].id == id
    ensures forall k | 0 <= k < |evidence| && evidence[k].id == id && (forall j | k < j < |evidence| :: evidence[j].id != id) ::
              Texts(evidence)[id] == evidence[k].text
  {
    if evidence != [] {
      var init := evidence[..|evidence| - 1];
      TextsMeans(init, id);
      assert forall k | 0 <= k < |init| :: init[k] == evidence[k];
      forall k | 0 <= k < |evidence| && evidence[k].id == id && (forall j | k < j < |evidence| :: evidence[j].id != id)
        ensures Texts(evidence)[id] == evidence[k].text
      {
        if k < |init| {
          assert init[k].id == id && evidence[|evidence| - 1].id != id;
        }
      }
      assert evidence[|evidence| - 1].id == id ==> id in Texts(evidence);
    }
  }
}

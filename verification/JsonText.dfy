/**
 Reading a model's JSON answer (fair/quality/json_data.py): bare, inside a code fence, or
 lifted out of a short wrapper of prose.

 The strict JSON parser is a parameter, a function from text to a value or a failure.  What
 is used of it is `NeverATick`: a JSON text does not begin with a backtick (RFC 8259,
 section 2).  `word` stands for the `\w` of the pattern language.
 */
module JsonText {
  import opened Options
  import opened Fence

  const MAX_WRAPPER := 300

  predicate Opening(c: char) { c == '{' || c == '[' }

  predicate Closing(c: char) { c == '}' || c == ']' }

  predicate Bracket(c: char) { Opening(c) || Closing(c) }

  predicate Plain(s: string) {
    forall k | 0 <= k < |s| :: !Bracket(s[k])
  }

  /** The first opening bracket, or the length of the text. */
  function FirstOpening(s: string): (i: nat)
    ensures i <= |s| && (forall k | 0 <= k < i :: !Opening(s[k])) && (i < |s| ==> Opening(s[i]))
  {
    if s == [] then 0 else if Opening(s[0]) then 0 else 1 + FirstOpening(s[1..])
  }

  /** The last closing bracket, or -1. */
  function LastClosing(s: string): (j: int)
    ensures -1 <= j < |s| && (forall k | j < k < |s| :: !Closing(s[k])) && (j >= 0 ==> Closing(s[j]))
  {
    if s == [] then -1 else if Closing(s[|s| - 1]) then |s| - 1 else LastClosing(s[..|s| - 1])
  }

  function Rstrip(s: string): string { s[..Stripped(s)] }

  function Lstrip(s: string): string { s[Skip(Spaces, s, 0)..] }

  predicate EndsIn(s: string, t: string) {
    |s| >= |t| && s[|s| - |t|..] == t
  }

  predicate Quote(c: char) { c == '"' || c == '\'' }

  predicate Digit(c: char) { '0' <= c <= '9' }

  function Last(s: string, n: nat): string { if |s| <= n then s else s[|s| - n..] }

  function First(s: string, n: nat): string { if |s| <= n then s else s[..n] }

  /** The text before a comma ends in a JSON value. */
  predicate EndsInValue(s: string, word: char -> bool) {
    s != [] && (Quote(s[|s| - 1]) || Digit(s[|s| - 1])
                || exists w | w in ["true", "false", "null"] ::
                     EndsIn(s, w) && (|s| == |w| || !word(s[|s| - |w| - 1])))
  }

  /** The text after a comma begins with a JSON value. */
  predicate BeginsWithValue(s: string, word: char -> bool) {
    s != [] && (Quote(s[0]) || Digit(s[0]) || s[0] == '-'
                || exists w | w in ["true", "false", "null"] ::
                     w <= s && (|s| == |w| || !word(s[|w|])))
  }

  /** Next to the span stand marks of a larger structure it is a member of. */
  predicate IsMember(before: string, after: string, word: char -> bool) {
    var lead, trail := Rstrip(before), Lstrip(after);
    || (EndsIn(lead, ":") && var key := Rstrip(lead[..|lead| - 1]); key != [] && Quote(key[|key| - 1]))
    || (EndsIn(lead, ",") && EndsInValue(Last(Rstrip(lead[..|lead| - 1]), 6), word))
    || ("," <= trail && BeginsWithValue(First(Lstrip(trail[1..]), 6), word))
  }

  /** The characters of `s` that are not whitespace. */
  function Dense(s: string): nat {
    if s == [] then 0 else (if Space(s[0]) then 0 else 1) + Dense(s[1..])
  }

  function Unwrap(s: string, word: char -> bool): (r: Option<string>)
  {
    var i, j := FirstOpening(s), LastClosing(s);
    if i == |s| || j < i then None
    else
      var before, after := s[..i], s[j + 1..];
      if !Plain(before + after) || IsMember(before, after, word) || Dense(before + after) > MAX_WRAPPER then None
      else Some(s[i..j + 1])
  }

  /** `s` split into plain text, a span from an opening to a closing bracket, and plain text. */
  ghost predicate Split(s: string, before: string, span: string, after: string) {
    && s == before + span + after
    && span != [] && Opening(span[0]) && Closing(span[|span| - 1])
    && Plain(before) && Plain(after)
  }

  /** A split is where the first opening and the last closing bracket are. */
  lemma {:induction false} SplitPlaces(s: string, before: string, span: string, after: string)
    requires Split(s, before, span, after)
    ensures FirstOpening(s) == |before| && LastClosing(s) == |before| + |span| - 1
  {
    var i, j := |before|, |before| + |span| - 1;
    assert s[i] == span[0] && s[j] == span[|span| - 1];
    forall k | 0 <= k < i ensures !Bracket(s[k]) {
      assert s[k] == before[k];
    }
    forall k | j < k < |s| ensures !Bracket(s[k]) {
      assert s[k] == after[k - j - 1];
    }
  }

  /** At most one span can be lifted out of a text. */
  lemma {:induction false} OneSplit(s: string, before: string, span: string, after: string, before': string, span': string, after': string)
    requires Split(s, before, span, after) && Split(s, before', span', after')
    ensures before == before' && span == span' && after == after'
  {
    SplitPlaces(s, before, span, after);
    SplitPlaces(s, before', span', after');
    assert before == s[..|before|] && before' == s[..|before|];
    assert span == s[|before|..|before| + |span|] && span' == s[|before|..|before| + |span|];
    assert after == s[|before| + |span|..] && after' == s[|before| + |span|..];
  }

  /** A split whose wrapper is short and shows no larger structure. */
  ghost predicate CleanSplit(s: string, before: string, span: string, after: string, word: char -> bool) {
    Split(s, before, span, after) && !IsMember(before, after, word) && Dense(before + after) <= MAX_WRAPPER
  }

  lemma {:induction false} PlainParts(a: string, b: string)
    ensures Plain(a + b) <==> Plain(a) && Plain(b)
  {
    assert forall k | 0 <= k < |a| :: a[k] == (a + b)[k];
    assert forall k | 0 <= k < |b| :: b[k] == (a + b)[|a| + k];
  }

  lemma {:induction false} UnwrapSplits(s: string, word: char -> bool)
    requires Unwrap(s, word).Some?
    ensures CleanSplit(s, s[..FirstOpening(s)], Unwrap(s, word).value, s[LastClosing(s) + 1..], word)
  {
    hide IsMember, Dense, Plain;
    var i, j := FirstOpening(s), LastClosing(s);
    var before, span, after := s[..i], s[i..j + 1], s[j + 1..];
    assert Plain(before) && Plain(after) by {
      PlainParts(before, after);
    }
    assert s == before + span + after;
    assert span[0] == s[i] && span[|span| - 1] == s[j];
    assert Split(s, before, span, after);
  }

  lemma {:induction false} SplitUnwraps(s: string, before: string, span: string, after: string, word: char -> bool)
    requires CleanSplit(s, before, span, after, word)
    ensures Unwrap(s, word) == Some(span)
  {
    hide IsMember, Dense;
    SplitPlaces(s, before, span, after);
    PlainParts(before, after);
    assert before == s[..FirstOpening(s)];
    assert after == s[LastClosing(s) + 1..];
    assert span == s[FirstOpening(s)..LastClosing(s) + 1];
  }

  /** What `Unwrap` returns: the span of the only split, when its wrapper is short and no part of a structure. */
  lemma {:induction false} UnwrapIsTheSplit(s: string, word: char -> bool, span: string)
    ensures Unwrap(s, word) == Some(span) <==> exists before, after :: CleanSplit(s, before, span, after, word)
  {
    hide Unwrap, CleanSplit;
    if Unwrap(s, word) == Some(span) {
      UnwrapSplits(s, word);
    }
    forall before, after | CleanSplit(s, before, span, after, word) ensures Unwrap(s, word) == Some(span) {
      SplitUnwraps(s, before, span, after, word);
    }
  }

  // ---------- reading ----------

  datatype Wrapper = Bare | FencedBody | Prose

  datatype Reading<J> = Reading(value: J, body: string, wrapper: Wrapper)

  /** No text the parser accepts begins, after whitespace, with a backtick. */
  ghost predicate NeverATick<J(!new)>(parse: string -> Option<J>) {
    forall s | parse(s).Some? :: var w := Skip(Spaces, s, 0); w < |s| && s[w] != '`'
  }

  function ReadJson<J>(parse: string -> Option<J>, word: char -> bool, s: string): Option<Reading<J>> {
    var fence := Fenced(s);
    var body := if fence.Some? then fence.value else s;
    var strict := parse(body);
    if strict.Some? then Some(Reading(strict.value, body, if fence.Some? then FencedBody else Bare))
    else
      var document := Unwrap(s, word);
      if document.None? then None else
      var inner := parse(document.value);
      if inner.None? then None else Some(Reading(inner.value, document.value, Prose))
  }

  function JsonOf<J>(parse: string -> Option<J>, word: char -> bool, s: string): Option<string> {
    var r := ReadJson(parse, word, s);
    if r.Some? then Some(r.value.body) else None
  }

  /** The text handed back is the parsed document itself: read again it is bare and has the same value. */
  lemma {:induction false} ReadingIsCanonical<J(!new)>(parse: string -> Option<J>, word: char -> bool, s: string)
    requires NeverATick(parse) && ReadJson(parse, word, s).Some?
    ensures var r := ReadJson(parse, word, s).value;
            && parse(r.body) == Some(r.value)
            && ReadJson(parse, word, r.body) == Some(Reading(r.value, r.body, Bare))
            && JsonOf(parse, word, r.body) == Some(r.body)
  {
    var r := ReadJson(parse, word, s).value;
    var w := Skip(Spaces, r.body, 0);
    assert r.body[w] != '`';
  }

  /** A text that already was strict JSON reads as itself. */
  lemma {:induction false} BareIsUntouched<J(!new)>(parse: string -> Option<J>, word: char -> bool, s: string)
    requires NeverATick(parse) && parse(s).Some?
    ensures ReadJson(parse, word, s) == Some(Reading(parse(s).value, s, Bare))
  {
    var w := Skip(Spaces, s, 0);
    assert s[w] != '`';
  }

  // ---------- what marks a member of a larger structure ----------

  ghost predicate Blanks(s: string) { forall k | 0 <= k < |s| :: Space(s[k]) }

  /** `v`, coming after `p`, is where a JSON value ends: a quote, a digit, or a word of its own. */
  predicate EndsAt(p: string, v: string, word: char -> bool) {
    || (|v| == 1 && (Quote(v[0]) || Digit(v[0])))
    || ((v == "true" || v == "false" || v == "null") && (p == [] || !word(p[|p| - 1])))
  }

  /** `v`, with `r` coming after it, is where a JSON value begins. */
  predicate BeginsAt(v: string, r: string, word: char -> bool) {
    || (|v| == 1 && (Quote(v[0]) || Digit(v[0]) || v[0] == '-'))
    || ((v == "true" || v == "false" || v == "null") && (r == [] || !word(r[0])))
  }

  /** A quoted key and a colon. */
  ghost predicate KeyAt(before: string, p: string, q: char, w: string, x: string) {
    before == p + [q] + w + ":" + x && Quote(q) && Blanks(w) && Blanks(x)
  }

  /** A value and a comma. */
  ghost predicate ListedAfter(before: string, p: string, v: string, w: string, x: string, word: char -> bool) {
    before == p + v + w + "," + x && EndsAt(p, v, word) && Blanks(w) && Blanks(x)
  }

  /** A comma and a value. */
  ghost predicate ListedBefore(after: string, w: string, x: string, v: string, r: string, word: char -> bool) {
    after == w + "," + x + v + r && BeginsAt(v, r, word) && Blanks(w) && Blanks(x)
  }

  lemma {:induction false} RstripOf(a: string, c: char, w: string)
    requires !Space(c) && Blanks(w)
    ensures Rstrip(a + [c] + w) == a + [c]
  {
    var s := a + [c] + w;
    var n := Stripped(s);
    assert s[|a|] == c;
    assert forall k | |a| < k < |s| :: s[k] == w[k - |a| - 1] && Space(s[k]);
    assert s[..|a| + 1] == a + [c];
  }

  lemma {:induction false} LstripOf(w: string, c: char, a: string)
    requires !Space(c) && Blanks(w)
    ensures Lstrip(w + [c] + a) == [c] + a
  {
    var s := w + [c] + a;
    var n := Skip(Spaces, s, 0);
    assert s[|w|] == c && !In(Spaces, c);
    assert forall k | 0 <= k < |w| :: s[k] == w[k] && In(Spaces, s[k]);
    assert s[|w|..] == [c] + a;
  }

  /** What stripping leaves ends in a character that is no space, with spaces behind it. */
  lemma {:induction false} RstripSplits(s: string) returns (w: string)
    ensures s == Rstrip(s) + w && Blanks(w)
    ensures Rstrip(s) != [] ==> !Space(Rstrip(s)[|Rstrip(s)| - 1])
  {
    w := s[Stripped(s)..];
    assert s == s[..Stripped(s)] + w;
  }

  lemma {:induction false} LstripSplits(s: string) returns (w: string)
    ensures s == w + Lstrip(s) && Blanks(w)
    ensures Lstrip(s) != [] ==> !Space(Lstrip(s)[0])
  {
    var n := Skip(Spaces, s, 0);
    w := s[..n];
    forall k | 0 <= k < |w| ensures Space(w[k]) {
      assert In(Spaces, s[k]);
    }
    assert s == w + s[n..];
    assert n < |s| ==> !In(Spaces, s[n]);
  }

  predicate EndsInWord(s: string, v: string, word: char -> bool) {
    EndsIn(s, v) && (|s| == |v| || !word(s[|s| - |v| - 1]))
  }

  predicate BeginsWithWord(s: string, v: string, word: char -> bool) {
    v <= s && (|s| == |v| || !word(s[|v|]))
  }

  lemma {:induction false} ThreeWords(s: string, word: char -> bool)
    ensures EndsInValue(s, word) <==>
              s != [] && (Quote(s[|s| - 1]) || Digit(s[|s| - 1])
                          || EndsInWord(s, "true", word) || EndsInWord(s, "false", word) || EndsInWord(s, "null", word))
    ensures BeginsWithValue(s, word) <==>
              s != [] && (Quote(s[0]) || Digit(s[0]) || s[0] == '-'
                          || BeginsWithWord(s, "true", word) || BeginsWithWord(s, "false", word) || BeginsWithWord(s, "null", word))
  {
    var words := ["true", "false", "null"];
    assert words[0] in words && words[1] in words && words[2] in words;
  }

  /** Six characters are enough to see one of the words and what stands next to it. */
  lemma {:induction false} SixAreEnough(s: string, v: string, word: char -> bool)
    requires 0 < |v| < 6
    ensures EndsInWord(Last(s, 6), v, word) <==> EndsInWord(s, v, word)
    ensures BeginsWithWord(First(s, 6), v, word) <==> BeginsWithWord(s, v, word)
  {
    if |s| > 6 {
      var t, u := Last(s, 6), First(s, 6);
      assert t[6 - |v|..] == s[|s| - |v|..];
      assert t[6 - |v| - 1] == s[|s| - |v| - 1];
      assert u[..|v|] == s[..|v|] && u[|v|] == s[|v|];
    }
  }

  /** `p` may stand before a word. */
  predicate NoWordEnd(p: string, word: char -> bool) { p == [] || !word(p[|p| - 1]) }

  predicate NoWordStart(r: string, word: char -> bool) { r == [] || !word(r[0]) }

  lemma {:induction false} WordEnds(s: string, p: string, v: string, word: char -> bool)
    requires s == p + v
    ensures EndsInWord(s, v, word) <==> NoWordEnd(p, word)
  {
    assert s[|s| - |v|..] == v;
    assert p != [] ==> s[|p| - 1] == p[|p| - 1];
  }

  lemma {:induction false} WordBegins(s: string, v: string, r: string, word: char -> bool)
    requires s == v + r
    ensures BeginsWithWord(s, v, word) <==> NoWordStart(r, word)
  {
    assert s[..|v|] == v;
    assert r != [] ==> s[|v|] == r[0];
  }

  lemma {:induction false} Edges(s: string)
    ensures s == [] <==> Last(s, 6) == []
    ensures s == [] <==> First(s, 6) == []
    ensures s != [] ==> Last(s, 6)[|Last(s, 6)| - 1] == s[|s| - 1] && First(s, 6)[0] == s[0]
  {
  }

  lemma {:induction false} EndSeen(s: string, p: string, v: string, word: char -> bool)
    requires s == p + v && EndsAt(p, v, word)
    ensures EndsInValue(Last(s, 6), word)
  {
    hide EndsInValue, EndsInWord, Last;
    Edges(s);
    ThreeWords(Last(s, 6), word);
    if |v| != 1 {
      SixAreEnough(s, v, word);
      WordEnds(s, p, v, word);
    }
  }

  lemma {:induction false} EndFound(s: string, word: char -> bool) returns (p: string, v: string)
    requires EndsInValue(Last(s, 6), word)
    ensures s == p + v && EndsAt(p, v, word) && v != [] && !Space(v[|v| - 1])
  {
    hide EndsInValue, EndsInWord, Last;
    var t := Last(s, 6);
    Edges(s);
    ThreeWords(t, word);
    if Quote(s[|s| - 1]) || Digit(s[|s| - 1]) {
      p, v := s[..|s| - 1], [s[|s| - 1]];
    } else {
      v := if EndsInWord(t, "true", word) then "true" else if EndsInWord(t, "false", word) then "false" else "null";
      SixAreEnough(s, v, word);
      EndsInIs(s, v, word);
      p := s[..|s| - |v|];
      WordEnds(s, p, v, word);
    }
  }

  lemma {:induction false} EndsInIs(s: string, v: string, word: char -> bool)
    requires EndsInWord(s, v, word)
    ensures |v| <= |s| && s == s[..|s| - |v|] + v
  {
  }

  lemma {:induction false} BeginsWithIs(s: string, v: string, word: char -> bool)
    requires BeginsWithWord(s, v, word)
    ensures |v| <= |s| && s == v + s[|v|..]
  {
  }

  lemma {:induction false} BeginningSeen(s: string, v: string, r: string, word: char -> bool)
    requires s == v + r && BeginsAt(v, r, word)
    ensures BeginsWithValue(First(s, 6), word)
  {
    hide BeginsWithValue, BeginsWithWord, First;
    Edges(s);
    ThreeWords(First(s, 6), word);
    if |v| != 1 {
      SixAreEnough(s, v, word);
      WordBegins(s, v, r, word);
    }
  }

  lemma {:induction false} BeginningFound(s: string, word: char -> bool) returns (v: string, r: string)
    requires BeginsWithValue(First(s, 6), word)
    ensures s == v + r && BeginsAt(v, r, word) && v != [] && !Space(v[0])
  {
    hide BeginsWithValue, BeginsWithWord, First;
    var t := First(s, 6);
    Edges(s);
    ThreeWords(t, word);
    if Quote(s[0]) || Digit(s[0]) || s[0] == '-' {
      v, r := [s[0]], s[1..];
    } else {
      v := if BeginsWithWord(t, "true", word) then "true" else if BeginsWithWord(t, "false", word) then "false" else "null";
      SixAreEnough(s, v, word);
      BeginsWithIs(s, v, word);
      r := s[|v|..];
      WordBegins(s, v, r, word);
    }
  }

  lemma {:induction false} KeyIsSeen(before: string, after: string, p: string, q: char, w: string, x: string, word: char -> bool)
    requires KeyAt(before, p, q, w, x)
    ensures IsMember(before, after, word)
  {
    hide EndsInValue, BeginsWithValue;
    RstripOf(p + [q] + w, ':', x);
    var lead := Rstrip(before);
    assert lead == p + [q] + w + ":" && lead[..|lead| - 1] == p + [q] + w;
    RstripOf(p, q, w);
  }

  lemma {:induction false} ListIsSeen(before: string, after: string, p: string, v: string, w: string, x: string, word: char -> bool)
    requires ListedAfter(before, p, v, w, x, word)
    ensures IsMember(before, after, word)
  {
    hide EndsInValue, BeginsWithValue, Last;
    RstripOf(p + v + w, ',', x);
    var lead := Rstrip(before);
    assert lead == p + v + w + "," && lead[..|lead| - 1] == p + v + w;
    assert p + v == (p + v[..|v| - 1]) + [v[|v| - 1]];
    RstripOf(p + v[..|v| - 1], v[|v| - 1], w);
    EndSeen(p + v, p, v, word);
  }

  lemma {:induction false} MoreIsSeen(before: string, after: string, w: string, x: string, v: string, r: string, word: char -> bool)
    requires ListedBefore(after, w, x, v, r, word)
    ensures IsMember(before, after, word)
  {
    hide EndsInValue, BeginsWithValue, First, Lstrip, Rstrip, BeginsAt;
    var rest := x + v + r;
    assert after == w + [','] + rest;
    LstripOf(w, ',', rest);
    ValueIsDense(v, r, word);
    assert rest == x + [v[0]] + (v + r)[1..] && v + r == [v[0]] + (v + r)[1..];
    LstripOf(x, v[0], (v + r)[1..]);
    BeginningSeen(v + r, v, r, word);
    assert Lstrip(after)[1..] == rest;
  }

  lemma {:induction false} ValueIsDense(v: string, r: string, word: char -> bool)
    requires BeginsAt(v, r, word)
    ensures v != [] && !Space(v[0])
  {
  }

  /**
   When a span is taken for a member of a larger structure: exactly if a quoted key and a colon,
   or a value and a comma, stand before it, or a comma and a value behind it, with nothing
   but whitespace between.  The six characters looked at lose nothing.
   */
  lemma {:induction false} MembersAreMarked(before: string, after: string, word: char -> bool)
    ensures IsMember(before, after, word) <==>
              || (exists p, q, w, x :: KeyAt(before, p, q, w, x))
              || (exists p, v, w, x :: ListedAfter(before, p, v, w, x, word))
              || (exists w, x, v, r :: ListedBefore(after, w, x, v, r, word))
  {
    hide EndsInValue, BeginsWithValue, Last, First, KeyAt, ListedAfter, ListedBefore;
    if p, q, w, x :| KeyAt(before, p, q, w, x) {
      KeyIsSeen(before, after, p, q, w, x, word);
    }
    if p, v, w, x :| ListedAfter(before, p, v, w, x, word) {
      ListIsSeen(before, after, p, v, w, x, word);
    }
    if w, x, v, r :| ListedBefore(after, w, x, v, r, word) {
      MoreIsSeen(before, after, w, x, v, r, word);
    }
    if IsMember(before, after, word) {
      MarksAreThere(before, after, word);
    }
  }

  lemma {:induction false} MarksAreThere(before: string, after: string, word: char -> bool)
    requires IsMember(before, after, word)
    ensures || (exists p, q, w, x :: KeyAt(before, p, q, w, x))
            || (exists p, v, w, x :: ListedAfter(before, p, v, w, x, word))
            || (exists w, x, v, r :: ListedBefore(after, w, x, v, r, word))
  {
    hide EndsInValue, BeginsWithValue, Last, First, EndsAt, BeginsAt, Rstrip, Lstrip;
    var lead, trail := Rstrip(before), Lstrip(after);
    var x := RstripSplits(before);
    if EndsIn(lead, ":") && Rstrip(lead[..|lead| - 1]) != [] && Quote(Rstrip(lead[..|lead| - 1])[|Rstrip(lead[..|lead| - 1])| - 1]) {
      var key := Rstrip(lead[..|lead| - 1]);
      var w := RstripSplits(lead[..|lead| - 1]);
      assert lead == lead[..|lead| - 1] + ":" && key == key[..|key| - 1] + [key[|key| - 1]];
      assert KeyAt(before, key[..|key| - 1], key[|key| - 1], w, x);
    } else if EndsIn(lead, ",") && EndsInValue(Last(Rstrip(lead[..|lead| - 1]), 6), word) {
      var w := RstripSplits(lead[..|lead| - 1]);
      var p, v := EndFound(Rstrip(lead[..|lead| - 1]), word);
      assert lead == lead[..|lead| - 1] + ",";
      assert ListedAfter(before, p, v, w, x, word);
    } else {
      var w := LstripSplits(after);
      var y := LstripSplits(trail[1..]);
      var v, r := BeginningFound(Lstrip(trail[1..]), word);
      assert trail == "," + trail[1..];
      assert ListedBefore(after, w, y, v, r, word);
    }
  }

  /** What counts towards the wrapper's length: every character but whitespace. */
  lemma {:induction false} DenseCounts(a: string, c: char, b: string)
    ensures Dense(a + [c] + b) == Dense(a + b) + (if Space(c) then 0 else 1) && Dense([]) == 0
  {
    if a == [] {
      assert (a + [c] + b)[1..] == b && a + b == b;
    } else {
      assert (a + [c] + b)[1..] == a[1..] + [c] + b && (a + b)[1..] == a[1..] + b;
      DenseCounts(a[1..], c, b);
    }
  }
}

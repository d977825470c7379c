/**
 Reading a code fence (fair/quality/json_data.py, `_fenced`) and the pattern it replaced.

 The old pattern is the regular expression recorded at tests/test_json_answers.py:200.  It
 is run here as a backtracking matcher over a sequence of atoms, trying alternatives in
 the engine's order, so the first success is the match Python's `re` reports.
 */
module Fence {
  import opened Options

  /** What `str.isspace`, `strip` and `\s` call whitespace. */
  predicate Space(c: char) {
    var n := c as int;
    || 0x09 <= n <= 0x0D || 0x1C <= n <= 0x20 || n == 0x85 || n == 0xA0 || n == 0x1680
    || 0x2000 <= n <= 0x200A || n == 0x2028 || n == 0x2029 || n == 0x202F || n == 0x205F || n == 0x3000
  }

  predicate Tag(c: char) {
    'A' <= c <= 'Z' || 'a' <= c <= 'z' || '0' <= c <= '9' || c == '_' || c == '-'
  }

  // ---------- a backtracking matcher ----------

  datatype Class = Spaces | Tags | Any | Newline

  predicate In(k: Class, c: char) {
    match k
    case Spaces => Space(c)
    case Tags => Tag(c)
    case Any => true
    case Newline => c == '\n'
  }

  /**
   `Greedy(k)` is `k*`, `Lazy(k)` is `k*?`, `Maybe(k)` is `k?`.  `(?:k+)?` tries the same
   lengths in the same order as `k*`.  `End` is `$`: the end, or before a final newline.
   */
  datatype Atom = Greedy(k: Class) | Lazy(k: Class) | Maybe(k: Class) | Literal(c: char) | Open | Close | End

  /** Where the group was opened and closed. */
  datatype Span = Span(from: nat, to: nat)

  /** The first success from position `i`, in the engine's order of trying. */
  function Match(atoms: seq<Atom>, s: string, i: nat, group: Span): Option<Span>
    requires i <= |s|
    decreases |atoms|, |s| - i
  {
    if atoms == [] then Some(group)
    else
      var rest := atoms[1..];
      match atoms[0]
      case Greedy(k) =>
        if i < |s| && In(k, s[i]) then
          var longer := Match(atoms, s, i + 1, group);
          if longer.Some? then longer else Match(rest, s, i, group)
        else Match(rest, s, i, group)
      case Lazy(k) =>
        var shorter := Match(rest, s, i, group);
        if shorter.Some? then shorter
        else if i < |s| && In(k, s[i]) then Match(atoms, s, i + 1, group)
        else None
      case Maybe(k) =>
        if i < |s| && In(k, s[i]) then
          var taken := Match(rest, s, i + 1, group);
          if taken.Some? then taken else Match(rest, s, i, group)
        else Match(rest, s, i, group)
      case Literal(c) => if i < |s| && s[i] == c then Match(rest, s, i + 1, group) else None
      case Open => Match(rest, s, i, group.(from := i))
      case Close => Match(rest, s, i, group.(to := i))
      case End => if i == |s| || (i == |s| - 1 && s[i] == '\n') then Match(rest, s, i, group) else None
  }

  const TICKS: seq<Atom> := [Literal('`'), Literal('`'), Literal('`')]
  const TAIL: seq<Atom> := [Greedy(Spaces), End]
  const CLOSING: seq<Atom> := TICKS + TAIL
  const PADDED: seq<Atom> := [Maybe(Newline), Greedy(Spaces)] + CLOSING
  const BODY: seq<Atom> := [Open, Lazy(Any), Close] + PADDED
  const OPENED: seq<Atom> := [Greedy(Tags), Greedy(Spaces), Maybe(Newline)] + BODY
  const OLD_FENCE: seq<Atom> := [Greedy(Spaces)] + TICKS + OPENED

  /** What the old pattern captured, if it matched. */
  function OldBody(s: string): Option<string> {
    var m := Match(OLD_FENCE, s, 0, Span(0, 0));
    if m.Some? && m.value.from <= m.value.to <= |s| then Some(s[m.value.from..m.value.to]) else None
  }

  // ---------- the linear reader ----------

  /** The first position from `i` on whose character is not in `k`. */
  function Skip(k: Class, s: string, i: nat): (j: nat)
    requires i <= |s|
    ensures i <= j <= |s|
    ensures forall x | i <= x < j :: In(k, s[x])
    ensures j < |s| ==> !In(k, s[j])
    decreases |s| - i
  {
    if i < |s| && In(k, s[i]) then Skip(k, s, i + 1) else i
  }

  /** `strip` leaves nothing. */
  predicate Blank(s: string) { Skip(Spaces, s, 0) == |s| }

  /** The length of `s` without its trailing whitespace. */
  function Stripped(s: string): (n: nat)
    ensures n <= |s| && (forall x | n <= x < |s| :: Space(s[x])) && (n > 0 ==> !Space(s[n - 1]))
  {
    if s != [] && Space(s[|s| - 1]) then Stripped(s[..|s| - 1]) else |s|
  }

  predicate TicksAt(s: string, i: int) {
    0 <= i && i + 3 <= |s| && s[i] == '`' && s[i + 1] == '`' && s[i + 2] == '`'
  }

  /** Where the opening fence ends: whitespace, three backticks, a tag, whitespace. */
  function OpeningEnd(s: string): Option<nat> {
    var w := Skip(Spaces, s, 0);
    if TicksAt(s, w) then Some(Skip(Spaces, s, Skip(Tags, s, w + 3))) else None
  }

  function Fenced(s: string): (r: Option<string>)
    ensures r.Some? ==> |r.value| + 6 <= |s|
  {
    var opening := OpeningEnd(s);
    var end := Stripped(s);
    if opening.None? || end - 3 < opening.value || !TicksAt(s, end - 3) then None
    else
      var body := s[opening.value..end - 3];
      Some(body[..Stripped(body)])
  }

  // ---------- the matcher, piece by piece ----------

  /** Three backticks, then the rest. */
  lemma {:induction false} TicksMatch(rest: seq<Atom>, s: string, i: nat, g: Span)
    requires i <= |s|
    ensures Match(TICKS + rest, s, i, g) == if TicksAt(s, i) then Match(rest, s, i + 3, g) else None
  {
    var a := TICKS + rest;
    assert a[1..][1..][1..] == rest;
    if i < |s| && s[i] == '`' {
      assert Match(a, s, i, g) == Match(a[1..], s, i + 1, g);
      if i + 1 < |s| && s[i + 1] == '`' {
        assert Match(a[1..], s, i + 1, g) == Match(a[1..][1..], s, i + 2, g);
      }
    }
  }

  lemma {:induction false} EndMatches(s: string, i: nat, g: Span)
    requires i <= |s|
    ensures Match([End], s, i, g) == if i == |s| || (i == |s| - 1 && s[i] == '\n') then Some(g) else None
  {
    assert [End][1..] == [];
  }

  /** Trailing whitespace up to the end matches from `i` exactly when nothing else is left. */
  lemma {:induction false} TailMatches(s: string, i: nat, g: Span)
    requires i <= |s|
    ensures Match(TAIL, s, i, g) == if i >= Stripped(s) then Some(g) else None
    decreases |s| - i
  {
    assert TAIL[1..] == [End];
    EndMatches(s, i, g);
    if i < |s| && Space(s[i]) {
      TailMatches(s, i + 1, g);
    }
    if i + 1 == Stripped(s) {
      assert !Space(s[i]);
    }
  }

  lemma {:induction false} ClosingMatches(s: string, i: nat, g: Span)
    requires i <= |s|
    ensures Match(CLOSING, s, i, g) == if TicksAt(s, i) && i + 3 == Stripped(s) then Some(g) else None
  {
    TicksMatch(TAIL, s, i, g);
    if TicksAt(s, i) {
      TailMatches(s, i + 3, g);
    }
  }

  /** The closing fence, if the text ends in one. */
  predicate Closes(s: string) {
    TicksAt(s, Stripped(s) - 3)
  }

  /** Only whitespace stands between `i` and the closing fence. */
  ghost predicate Reaches(s: string, i: int) {
    Closes(s) && 0 <= i <= Stripped(s) - 3 && forall x | i <= x < Stripped(s) - 3 :: Space(s[x])
  }

  lemma {:induction false} SpacesThenClosing(s: string, i: nat, g: Span)
    requires i <= |s|
    ensures Match([Greedy(Spaces)] + CLOSING, s, i, g) == if Reaches(s, i) then Some(g) else None
    decreases |s| - i
  {
    var atoms := [Greedy(Spaces)] + CLOSING;
    assert atoms[1..] == CLOSING;
    ClosingMatches(s, i, g);
    if i < |s| && Space(s[i]) {
      SpacesThenClosing(s, i + 1, g);
    }
  }

  lemma {:induction false} PaddedMatches(s: string, i: nat, g: Span)
    requires i <= |s|
    ensures Match(PADDED, s, i, g) == if Reaches(s, i) then Some(g) else None
  {
    assert PADDED[1..] == [Greedy(Spaces)] + CLOSING;
    SpacesThenClosing(s, i, g);
    if i < |s| && s[i] == '\n' {
      SpacesThenClosing(s, i + 1, g);
    }
  }

  /** The lazy body from `i` stops at the first position that reaches the closing fence. */
  lemma {:induction false} LazyMatches(s: string, i: nat, g: Span) returns (b: nat)
    requires i <= |s|
    ensures Closes(s) && i <= Stripped(s) - 3 ==>
              Match([Lazy(Any), Close] + PADDED, s, i, g) == Some(g.(to := b))
              && i <= b && Reaches(s, b) && (b > i ==> !Reaches(s, b - 1))
    ensures !(Closes(s) && i <= Stripped(s) - 3) ==> Match([Lazy(Any), Close] + PADDED, s, i, g) == None
    decreases |s| - i
  {
    var atoms := [Lazy(Any), Close] + PADDED;
    assert atoms[1..] == [Close] + PADDED;
    assert ([Close] + PADDED)[1..] == PADDED;
    PaddedMatches(s, i, g.(to := i));
    b := i;
    if !Reaches(s, i) && i < |s| {
      b := LazyMatches(s, i + 1, g);
    }
  }

  /** What the body's group captures when it opens at `i`. */
  function BodyFrom(s: string, i: nat): Option<Span>
    requires i <= |s|
  {
    if Closes(s) && i <= Stripped(s) - 3
    then Some(Span(i, i + Stripped(s[i..Stripped(s) - 3]))) else None
  }

  /** Only one position is the first from `i` to reach the closing fence. */
  lemma {:induction false} FirstReach(s: string, i: nat, b: nat, c: nat)
    requires i <= b && Reaches(s, b) && (b > i ==> !Reaches(s, b - 1))
    requires i <= c && Reaches(s, c) && (c > i ==> !Reaches(s, c - 1))
    ensures b == c
  {
    assert b < c ==> Reaches(s, c - 1);
    assert c < b ==> Reaches(s, b - 1);
  }

  lemma {:induction false} BodyMatches(s: string, i: nat, g: Span)
    requires i <= |s|
    ensures Match(BODY, s, i, g) == BodyFrom(s, i)
  {
    assert BODY[1..] == [Lazy(Any), Close] + PADDED;
    var b := LazyMatches(s, i, g.(from := i));
    if Closes(s) && i <= Stripped(s) - 3 {
      var inner := s[i..Stripped(s) - 3];
      var c := i + Stripped(inner);
      forall x | c <= x < Stripped(s) - 3 ensures Space(s[x]) {
        assert s[x] == inner[x - i];
      }
      assert c > i ==> s[c - 1] == inner[c - 1 - i];
      FirstReach(s, i, b, c);
    }
  }

  /** Greedy whitespace before the body leaves the optional newline nothing to take. */
  lemma {:induction false} SpacesThenBody(s: string, i: nat, g: Span)
    requires i <= |s|
    ensures Match([Greedy(Spaces), Maybe(Newline)] + BODY, s, i, g) ==
              if Closes(s) && i <= Stripped(s) - 3 then BodyFrom(s, Skip(Spaces, s, i)) else None
    ensures Closes(s) && i <= Stripped(s) - 3 ==> Skip(Spaces, s, i) <= Stripped(s) - 3
    decreases |s| - i
  {
    var atoms := [Greedy(Spaces), Maybe(Newline)] + BODY;
    assert atoms[1..] == [Maybe(Newline)] + BODY;
    assert ([Maybe(Newline)] + BODY)[1..] == BODY;
    BodyMatches(s, i, g);
    if i < |s| && s[i] == '\n' {
      BodyMatches(s, i + 1, g);
    }
    if i < |s| && Space(s[i]) {
      SpacesThenBody(s, i + 1, g);
    }
  }

  lemma {:induction false} TagsThenBody(s: string, i: nat, g: Span)
    requires i <= |s|
    ensures Match(OPENED, s, i, g) ==
              if Closes(s) && i <= Stripped(s) - 3 then BodyFrom(s, Skip(Spaces, s, Skip(Tags, s, i))) else None
    decreases |s| - i
  {
    assert OPENED[1..] == [Greedy(Spaces), Maybe(Newline)] + BODY;
    SpacesThenBody(s, i, g);
    if i < |s| && Tag(s[i]) {
      TagsThenBody(s, i + 1, g);
    }
  }

  lemma {:induction false} SpacesThenTicks(s: string, i: nat, g: Span)
    requires i <= |s|
    ensures var w := Skip(Spaces, s, i);
            Match(OLD_FENCE, s, i, g) == if TicksAt(s, w) then Match(OPENED, s, w + 3, g) else None
    decreases |s| - i
  {
    assert OLD_FENCE[1..] == TICKS + OPENED;
    TicksMatch(OPENED, s, i, g);
    if i < |s| && Space(s[i]) {
      SpacesThenTicks(s, i + 1, g);
    }
  }

  /** Past the opening fence no backtick of the opening is left to close with. */
  lemma {:induction false} ClosingComesAfter(s: string, from: nat)
    requires from <= |s| && Closes(s) && from <= Stripped(s) - 3
    ensures Skip(Spaces, s, Skip(Tags, s, from)) <= Stripped(s) - 3
  {
    var t := Skip(Tags, s, from);
    var e := Stripped(s) - 3;
    assert s[e] == '`' && !Tag(s[e]) && !Space(s[e]);
    assert from <= e < t ==> In(Tags, s[e]);
    assert t <= e;
    assert t <= e < Skip(Spaces, s, t) ==> In(Spaces, s[e]);
  }

  /** The span the old pattern captures, in closed form. */
  function Captured(s: string): (r: Option<Span>)
    ensures r.Some? ==> r.value.from <= r.value.to <= |s|
  {
    var w := Skip(Spaces, s, 0);
    if TicksAt(s, w) && Closes(s) && w + 3 <= Stripped(s) - 3
    then ClosingComesAfter(s, w + 3); BodyFrom(s, Skip(Spaces, s, Skip(Tags, s, w + 3))) else None
  }

  lemma {:induction false} OldPatternCaptures(s: string)
    ensures Match(OLD_FENCE, s, 0, Span(0, 0)) == Captured(s)
  {
    hide Match, Skip, Stripped;
    SpacesThenTicks(s, 0, Span(0, 0));
    var w := Skip(Spaces, s, 0);
    if TicksAt(s, w) {
      TagsThenBody(s, w + 3, Span(0, 0));
    }
  }

  lemma {:induction false} ReaderCaptures(s: string)
    ensures Captured(s).None? ==> Fenced(s) == None
    ensures Captured(s).Some? ==> Fenced(s) == Some(s[Captured(s).value.from..Captured(s).value.to])
  {
    hide Skip, Stripped, Space, Tag, In;
    var w := Skip(Spaces, s, 0);
    if TicksAt(s, w) && Closes(s) && w + 3 <= Stripped(s) - 3 {
      ClosingComesAfter(s, w + 3);
      var o := Skip(Spaces, s, Skip(Tags, s, w + 3));
      assert OpeningEnd(s) == Some(o);
      SlicePrefix(s, o, Stripped(s) - 3, Stripped(s[o..Stripped(s) - 3]));
    }
  }

  lemma {:induction false} SlicePrefix(s: string, from: nat, to: nat, n: nat)
    requires from <= to <= |s| && n <= to - from
    ensures s[from..to][..n] == s[from..from + n]
  {
  }

  /** The linear reader returns a body exactly when the old pattern matches, and the same body. */
  lemma {:induction false} FencedIsOldPattern(s: string)
    ensures Fenced(s) == OldBody(s)
  {
    hide Match, Fenced, Captured;
    OldPatternCaptures(s);
    ReaderCaptures(s);
  }
}

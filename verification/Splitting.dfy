/** Text split at a separator, and joined again. */
module Splitting {

  /** `s.split(sep)` for a one-character separator. */
  function Split(s: string, sep: char): (ts: seq<string>)
    ensures ts != []
  {
    if s == [] then [""]
    else
      var ts := Split(s[1..], sep);
      if s[0] == sep then [""] + ts else [[s[0]] + ts[0]] + ts[1..]
  }

  function Join(ts: seq<string>, sep: char): string
    requires ts != []
  {
    if |ts| == 1 then ts[0] else ts[0] + [sep] + Join(ts[1..], sep)
  }

  lemma {:induction false} PiecesAreClean(s: string, sep: char)
    ensures forall t <- Split(s, sep) :: sep !in t
  {
    if s != [] {
      PiecesAreClean(s[1..], sep);
    }
  }

  lemma {:induction false} JoinHead(c: char, ts: seq<string>, sep: char)
    requires ts != []
    ensures Join([[c] + ts[0]] + ts[1..], sep) == [c] + Join(ts, sep)
  {
    var us := [[c] + ts[0]] + ts[1..];
    assert us[1..] == ts[1..];
    if |ts| > 1 {
      assert ([c] + ts[0]) + [sep] + Join(ts[1..], sep) == [c] + (ts[0] + [sep] + Join(ts[1..], sep));
    }
  }

  /** Nothing is lost by splitting. */
  lemma {:induction false} JoinSplit(s: string, sep: char)
    ensures Join(Split(s, sep), sep) == s
  {
    if s != [] {
      var ts := Split(s[1..], sep);
      JoinSplit(s[1..], sep);
      assert s == [s[0]] + s[1..];
      if s[0] == sep {
        assert ([""] + ts)[1..] == ts;
      } else {
        JoinHead(s[0], ts, sep);
      }
    }
  }

  /** The pieces found are the pieces joined. */
  lemma {:induction false} SplitJoin(ts: seq<string>, sep: char)
    requires ts != [] && forall t <- ts :: sep !in t
    ensures Split(Join(ts, sep), sep) == ts
    decreases |ts|, |ts[0]|
  {
    var s := Join(ts, sep);
    if ts[0] != [] {
      var us := [ts[0][1..]] + ts[1..];
      assert [ts[0][0]] + us[0] == ts[0] && us[1..] == ts[1..];
      assert [ts[0]] + ts[1..] == ts;
      JoinHead(ts[0][0], us, sep);
      assert s == [ts[0][0]] + Join(us, sep);
      assert sep !in ts[0] && sep !in us[0] by {
        assert ts[0] in ts;
      }
      assert ts[0][0] in ts[0];
      SplitJoin(us, sep);
      assert s[1..] == Join(us, sep);
    } else if |ts| > 1 {
      SplitJoin(ts[1..], sep);
      assert s == [sep] + Join(ts[1..], sep);
      assert s[1..] == Join(ts[1..], sep);
      assert ts == [""] + ts[1..];
    } else {
      assert ts == [""];
    }
  }

  /** Put a character before the first piece, or a separator before them all. */
  function Before(c: char, ts: seq<string>, sep: char): seq<string>
    requires ts != []
  {
    if c == sep then [""] + ts else [[c] + ts[0]] + ts[1..]
  }

  lemma {:induction false} SplitBefore(c: char, s: string, sep: char)
    ensures Split([c] + s, sep) == Before(c, Split(s, sep), sep)
  {
    assert ([c] + s)[1..] == s;
  }

  lemma {:induction false} BeforeMany(c: char, init: seq<string>, more: seq<string>, sep: char)
    requires init != []
    ensures Before(c, init + more, sep) == Before(c, init, sep) + more
  {
    assert (init + more)[1..] == init[1..] + more;
  }

  /** Splitting a longer text only splits what is left of the shorter one. */
  lemma {:induction false} SplitLonger(a: string, b: string, sep: char)
    ensures var ts := Split(a, sep);
            Split(a + b, sep) == ts[..|ts| - 1] + Split(ts[|ts| - 1] + b, sep)
  {
    var ts := Split(a, sep);
    if a == [] {
      assert a + b == b && ts[0] + b == b;
    } else {
      SplitLonger(a[1..], b, sep);
      assert a == [a[0]] + a[1..] && a + b == [a[0]] + (a[1..] + b);
      SplitBefore(a[0], a[1..], sep);
      SplitBefore(a[0], a[1..] + b, sep);
      LongerBefore(a[0], Split(a[1..], sep), b, sep);
    }
  }

  lemma {:induction false} LongerBefore(c: char, us: seq<string>, b: string, sep: char)
    requires us != []
    ensures var ts := Before(c, us, sep);
            Before(c, us[..|us| - 1] + Split(us[|us| - 1] + b, sep), sep) == ts[..|ts| - 1] + Split(ts[|ts| - 1] + b, sep)
  {
    hide Split;
    var init, last := us[..|us| - 1], us[|us| - 1];
    assert us == init + [last];
    if init != [] {
      BeforeMany(c, init, [last], sep);
      BeforeMany(c, init, Split(last + b, sep), sep);
      hide Before;
      var ts := Before(c, us, sep);
      assert ts[|ts| - 1] == last && ts[..|ts| - 1] == Before(c, init, sep);
    } else {
      SplitBefore(c, last + b, sep);
      assert [c] + (last + b) == [c] + last + b;
      assert init + Split(last + b, sep) == Split(last + b, sep);
    }
  }

  /** The first piece ends at the first separator. */
  lemma {:induction false} FirstPiece(s: string, k: nat, sep: char)
    requires k < |s| && s[k] == sep && sep !in s[..k]
    ensures Split(s, sep) == [s[..k]] + Split(s[k + 1..], sep)
  {
    if k > 0 {
      assert s[1..][..k - 1] == s[..k][1..] && s[..k][0] == s[0];
      assert s[0] in s[..k];
      FirstPiece(s[1..], k - 1, sep);
      assert s[1..][k..] == s[k + 1..];
      assert s[..k] == [s[0]] + s[1..][..k - 1];
    } else {
      assert s[..0] == "";
    }
  }
}

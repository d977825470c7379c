/**
 Lines of a streamed answer, read as its bytes arrive (fair/providers/live.py,
 `_stream_lines`): however the network cuts the bytes, the lines are those of the whole
 text, and the read stops at the byte cap.

 The incremental UTF-8 decoder is a parameter: any machine that takes one byte at a time,
 gives out text, and may fail.
 */
module Streaming {
  import opened Options
  import opened Splitting

  type Byte = n: int | 0 <= n < 256

  const MAX_STREAM_BYTES := 4_000_000

  /** `finish` tells whether the body may end here; the last call of the decoder gives out no text. */
  datatype Decoder<!S> = Decoder(start: S, step: (S, Byte) -> Option<(S, string)>, finish: S -> bool)

  datatype Outcome = Lines(lines: seq<string>) | Compressed | TooLarge | Malformed

  // ---------- decoding ----------

  function Feed<S>(d: Decoder<S>, s: S, bytes: seq<Byte>): Option<(S, string)> {
    if bytes == [] then Some((s, ""))
    else
      var first := d.step(s, bytes[0]);
      if first.None? then None
      else
        var rest := Feed(d, first.value.0, bytes[1..]);
        if rest.None? then None else Some((rest.value.0, first.value.1 + rest.value.1))
  }

  /** The text of a whole body, or None when it does not decode. */
  function Decode<S>(d: Decoder<S>, bytes: seq<Byte>): Option<string> {
    var fed := Feed(d, d.start, bytes);
    if fed.None? || !d.finish(fed.value.0) then None else Some(fed.value.1)
  }

  /** Bytes fed in two pieces are bytes fed at once. */
  lemma {:induction false} FeedMore<S>(d: Decoder<S>, s: S, a: seq<Byte>, b: seq<Byte>)
    ensures Feed(d, s, a).None? ==> Feed(d, s, a + b).None?
    ensures Feed(d, s, a).Some? ==>
              var fed := Feed(d, s, a).value;
              Feed(d, s, a + b) == if Feed(d, fed.0, b).None? then None
                                   else Some((Feed(d, fed.0, b).value.0, fed.1 + Feed(d, fed.0, b).value.1))
  {
    if a == [] {
      assert a + b == b;
      assert Feed(d, s, b).Some? ==> "" + Feed(d, s, b).value.1 == Feed(d, s, b).value.1;
    } else {
      var first := d.step(s, a[0]);
      assert (a + b)[1..] == a[1..] + b;
      if first.Some? {
        FeedMore(d, first.value.0, a[1..], b);
        if Feed(d, first.value.0, a[1..]).Some? {
          var fed := Feed(d, first.value.0, a[1..]).value;
          var more := Feed(d, fed.0, b);
          if more.Some? {
            assert first.value.1 + (fed.1 + more.value.1) == (first.value.1 + fed.1) + more.value.1;
          }
        }
      }
    }
  }

  lemma {:induction false} NothingFed<S>(d: Decoder<S>)
    ensures Feed(d, d.start, []) == Some((d.start, ""))
  {
  }

  function Flat(chunks: seq<seq<Byte>>): seq<Byte> {
    if chunks == [] then [] else Flat(chunks[..|chunks| - 1]) + chunks[|chunks| - 1]
  }

  lemma {:induction false} FlatMore(chunks: seq<seq<Byte>>, i: nat)
    requires i < |chunks|
    ensures Flat(chunks[..i + 1]) == Flat(chunks[..i]) + chunks[i]
    ensures Flat(chunks[..i + 1]) <= Flat(chunks)
  {
    var last := |chunks| - 1;
    assert chunks[..i + 1][..i] == chunks[..i];
    if i < last {
      FlatMore(chunks[..last], i);
      assert chunks[..last][..i + 1] == chunks[..i + 1];
    } else {
      assert chunks[..i + 1] == chunks;
    }
  }

  // ---------- lines ----------

  /** `rstrip("\r")` */
  function Trim(line: string): (t: string)
    ensures t <= line
  {
    if line != [] && line[|line| - 1] == '\r' then Trim(line[..|line| - 1]) else line
  }

  function Trims(raw: seq<string>): (lines: seq<string>)
    ensures |lines| == |raw| && forall k | 0 <= k < |raw| :: lines[k] == Trim(raw[k])
  {
    if raw == [] then [] else [Trim(raw[0])] + Trims(raw[1..])
  }

  lemma {:induction false} TrimsMore(a: seq<string>, b: seq<string>)
    ensures Trims(a + b) == Trims(a) + Trims(b)
  {
  }

  /** The lines of a whole text: what follows the last line feed counts only if there is anything. */
  function LinesOf(text: string): seq<string> {
    var raw := Split(text, '\n');
    Trims(raw[..|raw| - 1]) + (if raw[|raw| - 1] == "" then [] else [Trim(raw[|raw| - 1])])
  }

  /** Text read so far: `lines` are complete and `pending` is the rest. */
  ghost predicate ReadSoFar(text: string, lines: seq<string>, pending: string) {
    var raw := Split(text, '\n');
    exists done :: lines == Trims(done) && raw == done + Split(pending, '\n')
  }

  lemma {:induction false} StartReading()
    ensures ReadSoFar("", [], "")
  {
    assert [] + Split("", '\n') == Split("", '\n');
  }

  lemma {:induction false} ReadMore(text: string, lines: seq<string>, pending: string, more: string)
    requires ReadSoFar(text, lines, pending) && '\n' !in pending
    ensures ReadSoFar(text + more, lines, pending + more)
  {
    var raw := Split(text, '\n');
    var done :| lines == Trims(done) && raw == done + Split(pending, '\n');
    Whole(pending);
    SplitLonger(text, more, '\n');
    assert raw[|raw| - 1] == pending && raw[..|raw| - 1] == done;
  }

  lemma {:induction false} Whole(s: string)
    requires '\n' !in s
    ensures Split(s, '\n') == [s]
  {
    SplitJoin([s], '\n');
  }

  lemma {:induction false} OneTrim(line: string)
    ensures Trims([line]) == [Trim(line)]
  {
  }

  lemma {:induction false} TakeLine(text: string, lines: seq<string>, pending: string, k: nat)
    requires ReadSoFar(text, lines, pending) && k < |pending| && pending[k] == '\n' && '\n' !in pending[..k]
    ensures ReadSoFar(text, lines + [Trim(pending[..k])], pending[k + 1..])
  {
    hide Split, Trim, Trims;
    var done :| lines == Trims(done) && Split(text, '\n') == done + Split(pending, '\n');
    var line := pending[..k];
    FirstPiece(pending, k, '\n');
    TrimsMore(done, [line]);
    OneTrim(line);
    assert Split(text, '\n') == (done + [line]) + Split(pending[k + 1..], '\n');
  }

  lemma {:induction false} AllRead(text: string, lines: seq<string>, pending: string)
    requires ReadSoFar(text, lines, pending) && '\n' !in pending
    ensures LinesOf(text) == if pending == "" then lines else lines + [Trim(pending)]
  {
    var raw := Split(text, '\n');
    var done :| lines == Trims(done) && raw == done + Split(pending, '\n');
    Whole(pending);
    assert raw[|raw| - 1] == pending && raw[..|raw| - 1] == done;
  }

  /** Where the first line feed stands, or the length of the text. */
  function Feeds(s: string): (k: nat)
    ensures k <= |s| && '\n' !in s[..k] && (k < |s| ==> s[k] == '\n') && (k == |s| <==> '\n' !in s)
  {
    if s == [] then 0
    else if s[0] == '\n' then 0
    else
      var k := 1 + Feeds(s[1..]);
      assert s[..k] == [s[0]] + s[1..][..k - 1];
      k
  }

  /** `while "\n" in pending: line, pending = pending.split("\n", 1); yield line.rstrip("\r")` */
  method TakeLines(ghost text: string, lines: seq<string>, rest: string) returns (more: seq<string>, pending: string)
    requires ReadSoFar(text, lines, rest)
    ensures ReadSoFar(text, more, pending) && '\n' !in pending && lines <= more
  {
    hide ReadSoFar, Feeds;
    more, pending := lines, rest;
    while '\n' in pending
      invariant ReadSoFar(text, more, pending) && lines <= more
      decreases |pending|
    {
      var k := Feeds(pending);
      TakeLine(text, more, pending, k);
      more := more + [Trim(pending[..k])];
      pending := pending[k + 1..];
    }
  }

  /** What may come of a body, in terms of its bytes alone. */
  ghost predicate Reads<S>(d: Decoder<S>, bytes: seq<Byte>, identity: bool, out: Outcome) {
    match out
    case Compressed => !identity
    case Lines(lines) => identity && |bytes| <= MAX_STREAM_BYTES && Decode(d, bytes).Some? && lines == LinesOf(Decode(d, bytes).value)
    case TooLarge => identity && |bytes| > MAX_STREAM_BYTES
    case Malformed => identity && Decode(d, bytes).None?
  }

  /** The lines of a text that a line feed has ended. */
  function Complete(text: string): seq<string> {
    var raw := Split(text, '\n');
    Trims(raw[..|raw| - 1])
  }

  /** `n` chunks were read whole, and their complete lines handed on. */
  ghost predicate HandedOn<S>(d: Decoder<S>, chunks: seq<seq<Byte>>, handed: seq<string>, n: nat) {
    && n <= |chunks| && |Flat(chunks[..n])| <= MAX_STREAM_BYTES
    && Feed(d, d.start, Flat(chunks[..n])).Some? && handed == Complete(Feed(d, d.start, Flat(chunks[..n])).value.1)
  }

  /**
   Read a body chunk by chunk: the outcome depends on the bytes, not on the cuts.  What was
   handed on before a refusal are the complete lines of the chunks before the one that
   was refused.
   */
  method StreamLines<S>(d: Decoder<S>, identity: bool, chunks: seq<seq<Byte>>) returns (out: Outcome, handed: seq<string>)
    ensures Reads(d, Flat(chunks), identity, out)
    ensures out.Lines? ==> handed == out.lines
    ensures out.Compressed? ==> handed == []
    ensures out.TooLarge? ==> exists n: nat :: HandedOn(d, chunks, handed, n) && n < |chunks| && |Flat(chunks[..n + 1])| > MAX_STREAM_BYTES
    ensures out.Malformed? ==> exists n: nat :: HandedOn(d, chunks, handed, n)
                                 && (n == |chunks| || Feed(d, d.start, Flat(chunks[..n + 1])).None?)
  {
    hide ReadSoFar, LinesOf, Feed, Complete, Flat;
    handed := [];
    if !identity {
      return Compressed, [];
    }
    var state, pending, size := d.start, "", 0;
    ghost var text := "";
    StartReading();
    NothingFed(d);
    NothingFlat(chunks);
    for i := 0 to |chunks|
      invariant size == |Flat(chunks[..i])| <= MAX_STREAM_BYTES
      invariant Feed(d, d.start, Flat(chunks[..i])) == Some((state, text))
      invariant ReadSoFar(text, handed, pending) && '\n' !in pending
    {
      var data := chunks[i];
      FlatMore(chunks, i);
      FeedMore(d, d.start, Flat(chunks[..i]), data);
      var before := Flat(chunks[..i + 1]);
      FeedMore(d, d.start, before, Flat(chunks)[|before|..]);
      assert before + Flat(chunks)[|before|..] == Flat(chunks);
      OnlyComplete(text, handed, pending);
      assert HandedOn(d, chunks, handed, i);
      size := size + |data|;
      if size > MAX_STREAM_BYTES {
        return TooLarge, handed;
      }
      var fed := Feed(d, state, data);
      if fed.None? {
        return Malformed, handed;
      }
      ReadMore(text, handed, pending, fed.value.1);
      text := text + fed.value.1;
      state := fed.value.0;
      handed, pending := TakeLines(text, handed, pending + fed.value.1);
    }
    assert chunks[..|chunks|] == chunks;
    if !d.finish(state) {
      OnlyComplete(text, handed, pending);
      assert HandedOn(d, chunks, handed, |chunks|);
      return Malformed, handed;
    }
    AllRead(text, handed, pending);
    if pending != "" {
      handed := handed + [Trim(pending)];
    }
    out := Lines(handed);
  }

  lemma {:induction false} NothingFlat(chunks: seq<seq<Byte>>)
    ensures Flat(chunks[..0]) == []
  {
  }

  lemma {:induction false} OnlyComplete(text: string, lines: seq<string>, pending: string)
    requires ReadSoFar(text, lines, pending) && '\n' !in pending
    ensures lines == Complete(text)
  {
    var raw := Split(text, '\n');
    var done :| lines == Trims(done) && raw == done + Split(pending, '\n');
    Whole(pending);
    assert raw[..|raw| - 1] == done;
  }

  /** Whatever was handed on before a refusal begins the lines of any text that goes on from there. */
  lemma {:induction false} HandedOnBegins(text: string, more: string)
    ensures Complete(text) <= LinesOf(text + more)
  {
    var raw := Split(text, '\n');
    var rest := Split(raw[|raw| - 1] + more, '\n');
    SplitLonger(text, more, '\n');
    var all := Split(text + more, '\n');
    assert all[..|all| - 1] == raw[..|raw| - 1] + rest[..|rest| - 1];
    TrimsMore(raw[..|raw| - 1], rest[..|rest| - 1]);
  }

  // ---------- what a server writes ----------

  function Returns(n: nat): string {
    if n == 0 then "" else Returns(n - 1) + "\r"
  }

  /** Lines written with `n` carriage returns and a line feed after each. */
  function WrittenLines(lines: seq<(string, nat)>): string {
    if lines == [] then "" else lines[0].0 + Returns(lines[0].1) + "\n" + WrittenLines(lines[1..])
  }

  predicate PlainLine(line: string) {
    '\n' !in line && (line == "" || line[|line| - 1] != '\r')
  }

  lemma {:induction false} TrimReturns(line: string, n: nat)
    requires PlainLine(line)
    ensures Trim(line + Returns(n)) == line && '\n' !in line + Returns(n)
  {
    if n == 0 {
      assert line + "" == line;
    } else {
      TrimReturns(line, n - 1);
      assert (line + Returns(n))[..|line| + |Returns(n - 1)|] == line + Returns(n - 1);
    }
  }

  lemma {:induction false} FirstLine(raw: string, rest: string)
    requires '\n' !in raw
    ensures LinesOf(raw + "\n" + rest) == [Trim(raw)] + LinesOf(rest)
  {
    var text := raw + "\n" + rest;
    assert text[..|raw|] == raw && text[|raw| + 1..] == rest;
    FirstPiece(text, |raw|, '\n');
    var pieces := Split(rest, '\n');
    var all := Split(text, '\n');
    assert all[..|all| - 1] == [raw] + pieces[..|pieces| - 1];
    TrimsMore([raw], pieces[..|pieces| - 1]);
    assert Trims([raw]) == [Trim(raw)];
  }

  lemma {:induction false} LastLine(last: string)
    requires PlainLine(last)
    ensures LinesOf(last) == if last == "" then [] else [last]
  {
    Whole(last);
    TrimReturns(last, 0);
    assert last + "" == last;
  }

  function Contents(lines: seq<(string, nat)>): seq<string> {
    if lines == [] then [] else [lines[0].0] + Contents(lines[1..])
  }

  /** Whatever lines a server writes, ended by `\n` or `\r\n`, are the lines read. */
  lemma {:induction false} WrittenLinesAreRead(lines: seq<(string, nat)>, last: string)
    requires PlainLine(last) && forall k | 0 <= k < |lines| :: PlainLine(lines[k].0)
    ensures LinesOf(WrittenLines(lines) + last) == Contents(lines) + if last == "" then [] else [last]
  {
    hide LinesOf, PlainLine, Returns, Trim;
    LastLine(last);
    if lines == [] {
      assert "" + last == last;
    } else {
      var (line, n) := lines[0];
      var rest := WrittenLines(lines[1..]) + last;
      TrimReturns(line, n);
      FirstLine(line + Returns(n), rest);
      assert WrittenLines(lines) + last == line + Returns(n) + "\n" + rest;
      WrittenLinesAreRead(lines[1..], last);
    }
  }
}

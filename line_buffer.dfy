/** The line buffer shared by the three versions of the display: a Go
    `[]string` whose entries are the text lines of the screen, and the
    effect of each line operation on it as a pure function. The methods of
    the display classes are proved to have exactly these effects. */
module LineBuffer {
  import opened GoTypes
  import opened Outcomes

  /** What an operation returns and the buffer it leaves behind. */
  datatype Step = Step(outcome: Outcome, buffer: seq<string>)

  /** `make([]string, n)`: n empty lines. */
  function Blank(n: nat): (r: seq<string>)
    ensures |r| == n
    ensures forall i | 0 <= i < n :: r[i] == ""
  {
    seq(n, _ => "")
  }

  /** `buf` with the run of entries starting at `start` replaced by `texts`. */
  function Overwrite(buf: seq<string>, start: nat, texts: seq<string>): (r: seq<string>)
    requires start + |texts| <= |buf|
    ensures |r| == |buf|
    ensures forall i | 0 <= i < |texts| :: r[start + i] == texts[i]
    ensures forall j | 0 <= j < |buf| && !(start <= j < start + |texts|) :: r[j] == buf[j]
  {
    buf[..start] + texts + buf[start + |texts|..]
  }

  /** A buffer that agrees with `buf` except on the run written from `start` is that overwrite. */
  lemma OverwriteUnique(buf: seq<string>, start: nat, texts: seq<string>, r: seq<string>)
    requires start + |texts| <= |buf|
    requires |r| == |buf|
    requires forall j | 0 <= j < |buf| :: r[j] == if start <= j < start + |texts| then texts[j - start] else buf[j]
    ensures r == Overwrite(buf, start, texts)
  {
    var o := Overwrite(buf, start, texts);
    forall j | 0 <= j < |buf| ensures r[j] == o[j] {
      if start <= j < start + |texts| {
        assert o[start + (j - start)] == texts[j - start];
      }
    }
  }

  /** How many iterations of `for i := range texts { buf[start+i] = texts[i] }`
      complete before an index falls outside the buffer. */
  function WrittenCount(start: int, n: nat, len: nat): (k: nat)
    ensures k <= n
    ensures k > 0 ==> 0 <= start && start + k <= len
    ensures k < n ==> start + k < 0 || start + k >= len
  {
    if start < 0 || start >= len then 0
    else if n <= len - start then n
    else len - start
  }

  /** Every index the loop computes before it stops is `start + i` exactly:
      the int addition `int(line)+i` cannot wrap inside the loop. */
  lemma LoopIndex(start: int, n: nat, len: nat, i: nat)
    requires MinInt <= start <= MaxInt && len <= MaxInt
    requires i <= WrittenCount(start, n, len)
    ensures MinInt <= start + i <= MaxInt
    ensures Wrap(start + i) == start + i
  {
    WrapInRange(start + i);
  }

  /** The Go loop `for i := range texts { buf[start+i] = texts[i] }` with
      `start` an `int`: it writes until the first index outside the buffer,
      where the run-time panics, keeping the writes already made. */
  function WriteRun(buf: seq<string>, start: int, texts: seq<string>): (s: Step)
    ensures |s.buffer| == |buf|
    ensures s.outcome.Ok? || s.outcome == Panic(IndexOutOfRange)
    ensures s.outcome.Ok? <==> |texts| == 0 || (0 <= start && start + |texts| <= |buf|)
    ensures s.outcome.Ok? && |texts| > 0 ==> s.buffer == Overwrite(buf, start, texts)
    ensures 0 <= start <= |buf| ==> s.buffer == Overwrite(buf, start, texts[..WrittenCount(start, |texts|, |buf|)])
    ensures (start < 0 || start >= |buf|) ==> s.buffer == buf
  {
    var k := WrittenCount(start, |texts|, |buf|);
    assert texts[..|texts|] == texts;
    Step(if k == |texts| then Ok else Panic(IndexOutOfRange),
         if k == 0 then buf else Overwrite(buf, start, texts[..k]))
  }

  /** `PrintLine` in the v2 and v1 displays: `int(line) >= len(buffer)` is an
      error, every line index below the length is written. */
  function SetLine(buf: seq<string>, line: Uint, text: string): (s: Step)
    requires |buf| <= MaxInt
    ensures s.outcome.Ok? <==> line < |buf|
    ensures s.outcome.Ok? ==> s.buffer == buf[line := text]
    ensures !s.outcome.Ok? ==> s.buffer == buf
    ensures |buf| <= line <= MaxInt ==> s.outcome == Fail(LineOutOfRange(line, |buf|))
    ensures line > MaxInt ==> s.outcome == Panic(IndexOutOfRange)
  {
    if Int(line) >= |buf| then Step(Fail(LineOutOfRange(line, |buf|)), buf)
    else if line < |buf| then Step(Ok, buf[line := text])
    else Step(Panic(IndexOutOfRange), buf)
  }

  /** `PrintLines` in the v2 and v1 displays: the capacity check
      `int(line)+len(texts) > int(lines)` uses the configured line count, and
      the writes then index the buffer itself. */
  function SetRun(buf: seq<string>, lines: Uint, line: Uint, texts: seq<string>): (s: Step)
    requires |buf| <= MaxInt
    ensures |s.buffer| == |buf|
    ensures s.outcome.Fail? <==> Wrap(Int(line) + |texts|) > Int(lines)
    ensures s.outcome.Fail? ==> s.outcome.error == TooManyLines(|buf|) && s.buffer == buf
    ensures !s.outcome.Fail? ==> s == WriteRun(buf, Int(line), texts)
  {
    if Wrap(Int(line) + |texts|) > Int(lines) then Step(Fail(TooManyLines(|buf|)), buf)
    else WriteRun(buf, Int(line), texts)
  }

  /** With the buffer as long as the configured line count and no int
      overflow, `SetRun` is all-or-nothing: it fails exactly when the run
      does not fit, leaving the buffer as it was, and otherwise writes the
      whole run and nothing else. */
  lemma SetRunAllOrNothing(buf: seq<string>, lines: Uint, line: Uint, texts: seq<string>)
    requires |buf| == lines <= MaxInt
    requires line + |texts| <= MaxInt
    ensures var s := SetRun(buf, lines, line, texts);
      && (s.outcome.Ok? <==> line + |texts| <= lines)
      && (s.outcome.Ok? ==> s.buffer == Overwrite(buf, line, texts))
      && (!s.outcome.Ok? ==> s.outcome == Fail(TooManyLines(|buf|)) && s.buffer == buf)
  {
    WrapInRange(line + |texts|);
    assert Int(line) == line && Int(lines) == lines;
    if |texts| == 0 && line <= |buf| {
      assert buf[..line] + [] + buf[line..] == buf;
    }
  }

  /** The capacity check is an int sum and can wrap: for `line = 2^63-1` and
      one text the sum wraps to the most negative int, the check passes, and
      the write then indexes far past the buffer and panics. */
  lemma SetRunOverflowPanics(buf: seq<string>, lines: Uint, t: string)
    requires |buf| <= MaxInt
    ensures SetRun(buf, lines, MaxInt, [t]) == Step(Panic(IndexOutOfRange), buf)
  {
    WrapJustAbove(MaxInt + 1);
  }

  /** The state of a `PrintLines` loop after `i` iterations starting at
      `start`: the first `i` texts are in place, everything else is as in `buf`. */
  ghost predicate Partial(buf: seq<string>, start: int, text: seq<string>, i: nat, r: seq<string>) {
    && i <= |text|
    && |r| == |buf|
    && forall j | 0 <= j < |buf| :: r[j] == if start <= j < start + i then text[j - start] else buf[j]
  }

  /** One more iteration writes the next text at the next index. */
  lemma PartialStep(buf: seq<string>, start: int, text: seq<string>, i: nat, r: seq<string>)
    requires Partial(buf, start, text, i, r)
    requires i < |text| && 0 <= start + i < |r|
    ensures Partial(buf, start, text, i + 1, r[start + i := text[i]])
  {
  }

  /** The buffer after `i` iterations of a `PrintLines` loop that stops at an
      index outside the buffer or at the end of the run is the one `WriteRun`
      describes. */
  lemma Written(buf: seq<string>, start: int, text: seq<string>, i: nat, r: seq<string>)
    requires |buf| <= MaxInt
    requires i <= WrittenCount(start, |text|, |buf|)
    requires i == |text| || start + i < 0 || start + i >= |buf|
    requires Partial(buf, start, text, i, r)
    ensures r == WriteRun(buf, start, text).buffer
    ensures WriteRun(buf, start, text).outcome.Ok? <==> i == |text|
  {
    var k := WrittenCount(start, |text|, |buf|);
    assert i == k;
    if k == 0 {
      assert r == buf;
    } else {
      OverwriteUnique(buf, start, text[..k], r);
    }
  }

  /** A `PrintLines` loop that passed the capacity check and stopped after
      `i` iterations, at the end of the run or at an index outside the
      buffer, has had exactly the effect `SetRun` describes. */
  lemma SetRunEnds(buf: seq<string>, lines: Uint, line: Uint, text: seq<string>, i: nat, r: seq<string>)
    requires |buf| <= MaxInt
    requires !SetRun(buf, lines, line, text).outcome.Fail?
    requires i <= WrittenCount(Int(line), |text|, |buf|)
    requires i == |text| || Int(line) + i < 0 || Int(line) + i >= |buf|
    requires Partial(buf, Int(line), text, i, r)
    ensures SetRun(buf, lines, line, text) == Step(if i == |text| then Ok else Panic(IndexOutOfRange), r)
  {
    var w := WriteRun(buf, Int(line), text);
    Written(buf, Int(line), text, i, r);
    assert w.outcome == if i == |text| then Ok else Panic(IndexOutOfRange);
  }
}

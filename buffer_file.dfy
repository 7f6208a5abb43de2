/** The persisted buffer file of the internal display: plain text, one
    display line per file line, separated by "\n". */
module BufferFile {

  /** No "\n" in the line. */
  predicate SingleLine(s: string) {
    forall i | 0 <= i < |s| :: s[i] != '\n'
  }

  /** `strings.Split(s, "\n")`: the pieces between the separators; one more
      piece than there are separators, so "" gives [""]. */
  function Split(s: string): (r: seq<string>)
    ensures |r| >= 1
    ensures forall i | 0 <= i < |r| :: SingleLine(r[i])
  {
    if |s| == 0 then [""]
    else if s[0] == '\n' then [""] + Split(s[1..])
    else
      var rest := Split(s[1..]);
      [[s[0]] + rest[0]] + rest[1..]
  }

  /** `strings.Join(lines, "\n")`: the lines in order, one separator
      between each two, so single-line strings give one separator fewer than
      there are lines. */
  function Join(lines: seq<string>): (s: string)
    ensures |lines| >= 1 ==> |lines[0]| <= |s| && s[..|lines[0]|] == lines[0]
    ensures |lines| >= 1 && (forall i | 0 <= i < |lines| :: SingleLine(lines[i])) ==>
      Separators(s) == |lines| - 1
  {
    if |lines| == 0 then ""
    else if |lines| == 1 then
      NoSeparators(lines[0]);
      lines[0]
    else
      var rest := Join(lines[1..]);
      assert forall i | 0 <= i < |lines[1..]| :: lines[1..][i] == lines[i + 1];
      SeparatorsAppend(lines[0] + "\n", rest);
      SeparatorsAppend(lines[0], "\n");
      NoSeparators(lines[0]);
      lines[0] + "\n" + rest
  }

  /** `if len(lines) > n { lines = lines[0:n] }`. */
  function Truncate(lines: seq<string>, n: nat): (r: seq<string>)
    ensures |r| == if |lines| > n then n else |lines|
    ensures r == lines[..|r|]
  {
    if |lines| > n then lines[..n] else lines
  }

  /** The lines `updateFromFile` installs from a file holding `data`, for a
      buffer of `capacity` lines. */
  function Load(data: string, capacity: nat): (r: seq<string>)
    ensures |r| <= capacity && |r| <= |data| + 1
  {
    SplitLength(data);
    Truncate(Split(data), capacity)
  }

  lemma {:induction false} SplitLength(s: string)
    ensures |Split(s)| <= |s| + 1
  {
    if |s| > 0 {
      SplitLength(s[1..]);
    }
  }

  /** A piece with no separator splits to itself. */
  lemma {:induction false} SplitSingle(a: string)
    requires SingleLine(a)
    ensures Split(a) == [a]
  {
    if |a| > 0 {
      SplitSingle(a[1..]);
      assert [a[0]] + a[1..] == a;
    }
  }

  /** Splitting stops at the first separator. */
  lemma {:induction false} SplitSeparator(a: string, b: string)
    requires SingleLine(a)
    ensures Split(a + "\n" + b) == [a] + Split(b)
  {
    if |a| == 0 {
      assert a + "\n" + b == "\n" + b;
      assert ("\n" + b)[1..] == b;
    } else {
      var s := a + "\n" + b;
      assert s[0] == a[0] && s[1..] == a[1..] + "\n" + b;
      SplitSeparator(a[1..], b);
      assert [a[0]] + a[1..] == a;
    }
  }

  /** Joining single-line strings and splitting again gives them back; the
      empty sequence is the one exception, since "" splits to [""]. */
  lemma {:induction false} SplitJoin(lines: seq<string>)
    requires |lines| >= 1
    requires forall i | 0 <= i < |lines| :: SingleLine(lines[i])
    ensures Split(Join(lines)) == lines
  {
    if |lines| == 1 {
      SplitSingle(lines[0]);
    } else {
      SplitJoin(lines[1..]);
      SplitSeparator(lines[0], Join(lines[1..]));
      assert [lines[0]] + lines[1..] == lines;
    }
  }

  lemma SplitJoinEmpty()
    ensures Split(Join([])) == [""]
  {
  }

  /** What was saved with `Join` loads back unchanged when it fits, and as
      its first `capacity` lines when it does not. */
  lemma LoadJoin(lines: seq<string>, capacity: nat)
    requires |lines| >= 1
    requires forall i | 0 <= i < |lines| :: SingleLine(lines[i])
    ensures |lines| <= capacity ==> Load(Join(lines), capacity) == lines
    ensures |lines| > capacity ==> Load(Join(lines), capacity) == lines[..capacity]
  {
    SplitJoin(lines);
  }

  /** Number of "\n" separators in `s`. */
  function Separators(s: string): nat
  {
    if |s| == 0 then 0 else (if s[0] == '\n' then 1 else 0) + Separators(s[1..])
  }

  /** Separators add up over concatenation. */
  lemma {:induction false} SeparatorsAppend(a: string, b: string)
    ensures Separators(a + b) == Separators(a) + Separators(b)
  {
    if |a| > 0 {
      assert (a + b)[1..] == a[1..] + b;
      SeparatorsAppend(a[1..], b);
    } else {
      assert a + b == b;
    }
  }

  /** A single line holds no separator. */
  lemma {:induction false} NoSeparators(a: string)
    ensures SingleLine(a) ==> Separators(a) == 0
  {
    if |a| > 0 {
      NoSeparators(a[1..]);
    }
  }

  /** A file with n separators has n + 1 lines, so any file with fewer than
      `capacity - 1` separators loads to fewer lines than the buffer had. */
  lemma {:induction false} SplitCountsSeparators(s: string)
    ensures |Split(s)| == 1 + Separators(s)
  {
    if |s| > 0 {
      SplitCountsSeparators(s[1..]);
    }
  }
}

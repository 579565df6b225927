/**
 The line buffer of the stdout relay: JavaScript's `s.split("\n")`, the
 `pop()` that keeps the unterminated tail, and the facts that make the
 relay independent of how the child's output is cut into chunks.
 */
module Lines {
  import opened Seqs

  const NL: char := '\n'

  /** The segments with one newline between each two (`parts.join("\n")`). */
  function Join(parts: seq<string>): string
  {
    if |parts| == 0 then ""
    else if |parts| == 1 then parts[0]
    else parts[0] + [NL] + Join(parts[1..])
  }

  /** Every segment is free of newlines. */
  ghost predicate NewlineFree(parts: seq<string>)
  {
    forall i :: 0 <= i < |parts| ==> NL !in parts[i]
  }

  /** `s.split("\n")`: at least one segment, none holding a newline (see
      JoinSplit for the way back). */
  function Split(s: string): (parts: seq<string>)
    ensures |parts| >= 1
    ensures NewlineFree(parts)
  {
    if |s| == 0 then [""]
    else
      var rest := Split(s[1..]);
      if s[0] == NL then
        [""] + rest
      else
        var parts := [[s[0]] + rest[0]] + rest[1..];
        assert parts[1..] == rest[1..];
        parts
  }

  /** Joining the segments of `s.split("\n")` with newlines gives `s` again. */
  lemma {:induction false} JoinSplit(s: string)
    ensures Join(Split(s)) == s
    decreases |s|
  {
    if |s| > 0 {
      var rest := Split(s[1..]);
      JoinSplit(s[1..]);
      assert s == [s[0]] + s[1..];
      if s[0] == NL {
        var parts := [""] + rest;
        assert parts[1..] == rest;
        assert Join(parts) == "" + [NL] + Join(rest);
      } else {
        var parts := [[s[0]] + rest[0]] + rest[1..];
        assert parts[1..] == rest[1..];
        if |rest| > 1 {
          assert Join(rest) == rest[0] + [NL] + Join(rest[1..]);
          assert Join(parts) == ([s[0]] + rest[0]) + [NL] + Join(rest[1..]);
        }
      }
    }
  }

  /** Each line followed by a newline: the text a sequence of complete lines
      occupies in the stream. */
  function Terminated(lines: seq<string>): string
  {
    if |lines| == 0 then "" else lines[0] + [NL] + Terminated(lines[1..])
  }

  /** The lines the handler dispatches: every segment of the split but the last. */
  function CompleteLines(s: string): (lines: seq<string>)
    ensures NewlineFree(lines)
  {
    var parts := Split(s);
    parts[..|parts| - 1]
  }

  /** `lines.pop()`: the last segment, kept as the new buffer. */
  function Partial(s: string): (p: string)
    ensures NL !in p
  {
    var parts := Split(s);
    parts[|parts| - 1]
  }

  lemma {:induction false} JoinAsTerminated(parts: seq<string>)
    requires |parts| >= 1
    ensures Join(parts) == Terminated(parts[..|parts| - 1]) + parts[|parts| - 1]
    decreases |parts|
  {
    if |parts| > 1 {
      JoinAsTerminated(parts[1..]);
      assert parts[1..][..|parts| - 2] == parts[..|parts| - 1][1..];
      assert Terminated(parts[..|parts| - 1]) ==
        parts[0] + [NL] + Terminated(parts[1..][..|parts| - 2]);
    }
  }

  /** Nothing is lost or added by the split:
      the old buffer plus the chunk is exactly the emitted lines, each
      followed by a newline, followed by the new buffer. */
  lemma Decomposition(s: string)
    ensures s == Terminated(CompleteLines(s)) + Partial(s)
  {
    JoinSplit(s);
    JoinAsTerminated(Split(s));
  }

  /** A newline-free prefix stays glued to the first segment of what follows. */
  lemma {:induction false} SplitPrepend(p: string, t: string)
    requires NL !in p
    ensures Split(p + t) == [p + Split(t)[0]] + Split(t)[1..]
    decreases |p|
  {
    if |p| == 0 {
      assert p + t == t;
      assert p + Split(t)[0] == Split(t)[0];
      assert Split(t) == [Split(t)[0]] + Split(t)[1..];
    } else {
      SplitPrepend(p[1..], t);
      assert (p + t)[1..] == p[1..] + t;
      assert (p + t)[0] == p[0];
      assert [p[0]] + (p[1..] + Split(t)[0]) == p + Split(t)[0];
    }
  }

  /** A newline-free segment followed by a newline is split off as one line. */
  lemma SplitAfterLine(s: string, p: string, t: string)
    requires NL !in p && s == p + [NL] + t
    ensures Split(s) == [p] + Split(t)
  {
    var u := [NL] + t;
    assert s == p + u;
    assert u[0] == NL && u[1..] == t;
    var su := Split(u);
    assert su == [""] + Split(t);
    SplitPrepend(p, u);
    assert su[1..] == Split(t);
    assert p + su[0] == p;
  }

  /** A text without newlines splits into itself alone. */
  lemma SplitNoNewline(s: string)
    requires NL !in s
    ensures Split(s) == [s]
  {
    SplitPrepend(s, "");
    assert s + "" == s;
  }

  /** Split undoes Join on newline-free segments: together with the
      contract of Split, the two are inverse to each other. */
  lemma {:induction false} SplitJoin(parts: seq<string>)
    requires |parts| >= 1 && NewlineFree(parts)
    ensures Split(Join(parts)) == parts
    decreases |parts|
  {
    if |parts| == 1 {
      SplitNoNewline(parts[0]);
    } else {
      assert NL !in parts[0];
      assert NewlineFree(parts[1..]) by {
        forall i | 0 <= i < |parts[1..]| ensures NL !in parts[1..][i] {
          assert parts[1..][i] == parts[i + 1];
        }
      }
      SplitJoin(parts[1..]);
      SplitAfterLine(Join(parts), parts[0], Join(parts[1..]));
    }
  }

  /** Newline-terminated lines in front of any text are split off one by one. */
  lemma {:induction false} SplitAfterTerminated(lines: seq<string>, x: string)
    requires NewlineFree(lines)
    ensures Split(Terminated(lines) + x) == lines + Split(x)
    decreases |lines|
  {
    if |lines| == 0 {
      assert Terminated(lines) + x == x;
      assert lines + Split(x) == Split(x);
    } else {
      var rest := lines[1..];
      assert NL !in lines[0];
      assert NewlineFree(rest) by {
        forall i | 0 <= i < |rest| ensures NL !in rest[i] {
          assert rest[i] == lines[i + 1];
        }
      }
      SplitAfterTerminated(rest, x);
      var y := Terminated(rest) + x;
      assert Terminated(lines) == lines[0] + [NL] + Terminated(rest);
      SplitAfterLine(Terminated(lines) + x, lines[0], y);
      ConsAppend(lines, Split(x));
    }
  }

  /** Complete lines in front of any text are emitted as they are, and do not
      change the partial tail. */
  lemma LinesAfterTerminated(lines: seq<string>, x: string)
    requires NewlineFree(lines)
    ensures CompleteLines(Terminated(lines) + x) == lines + CompleteLines(x)
    ensures Partial(Terminated(lines) + x) == Partial(x)
  {
    SplitAfterTerminated(lines, x);
    var sx := Split(x);
    assert (lines + sx)[..|lines + sx| - 1] == lines + sx[..|sx| - 1];
  }

  /** The decomposition of Decomposition is the only one: any newline-free
      lines and newline-free tail that rebuild `s` are its complete lines and
      its partial tail. */
  lemma DecompositionUnique(s: string, lines: seq<string>, tail: string)
    requires NewlineFree(lines) && NL !in tail
    requires s == Terminated(lines) + tail
    ensures lines == CompleteLines(s) && tail == Partial(s)
  {
    LinesAfterTerminated(lines, tail);
    SplitNoNewline(tail);
    assert lines + [] == lines;
  }

  /** Splitting after an append: the lines of `s + t` are those of `s`
      followed by those of the partial tail of `s` extended by `t`. */
  lemma LinesOfAppend(s: string, t: string)
    ensures CompleteLines(s + t) == CompleteLines(s) + CompleteLines(Partial(s) + t)
    ensures Partial(s + t) == Partial(Partial(s) + t)
  {
    Decomposition(s);
    assert s + t == Terminated(CompleteLines(s)) + (Partial(s) + t);
    LinesAfterTerminated(CompleteLines(s), Partial(s) + t);
  }

  /** A chunk without a newline completes no line; the buffer just grows. */
  lemma NoNewlineChunk(buffer: string, chunk: string)
    requires NL !in buffer && NL !in chunk
    ensures CompleteLines(buffer + chunk) == []
    ensures Partial(buffer + chunk) == buffer + chunk
  {
    assert NL !in buffer + chunk;
    SplitNoNewline(buffer + chunk);
  }

  /** One complete line per newline of the text. */
  lemma {:induction false} LineCount(s: string)
    ensures |CompleteLines(s)| == multiset(s)[NL]
    decreases |s|
  {
    if |s| > 0 {
      LineCount(s[1..]);
      assert s == [s[0]] + s[1..];
      assert multiset(s) == multiset([s[0]]) + multiset(s[1..]);
    }
  }
}

/**
 The classifier of the stdout relay: JavaScript's `String.prototype.trim()`
 and the prefix test that decides whether a complete line is protocol
 traffic (passed through to stdout) or diagnostic noise (filtered to stderr).
 */
module Classify {

  /** The characters `trim()` removes: ECMAScript's WhiteSpace (tab, vertical
      tab, form feed, space, no-break space, the byte order mark and every
      other Unicode space separator) and LineTerminator (line feed, carriage
      return, line separator, paragraph separator). */
  predicate IsWhitespace(c: char)
  {
    c == '\t' || c == '\n' || c == '\U{000B}' || c == '\U{000C}' || c == '\r'
    || c == ' ' || c == '\U{00A0}' || c == '\U{1680}'
    || ('\U{2000}' <= c <= '\U{200A}')
    || c == '\U{2028}' || c == '\U{2029}' || c == '\U{202F}' || c == '\U{205F}'
    || c == '\U{3000}' || c == '\U{FEFF}'
  }

  ghost predicate AllWhitespace(s: string)
  {
    forall i :: 0 <= i < |s| ==> IsWhitespace(s[i])
  }

  /** `s` with its leading whitespace removed (see TrimStartSpec). */
  function TrimStart(s: string): string
    decreases |s|
  {
    if |s| > 0 && IsWhitespace(s[0]) then TrimStart(s[1..]) else s
  }

  /** `s` with its trailing whitespace removed (see TrimEndSpec). */
  function TrimEnd(s: string): string
    decreases |s|
  {
    if |s| > 0 && IsWhitespace(s[|s| - 1]) then TrimEnd(s[..|s| - 1]) else s
  }

  /** `s.trim()` (see TrimSpec). */
  function Trim(s: string): string
  {
    TrimEnd(TrimStart(s))
  }

  /** TrimStart keeps the longest suffix of `s` that does not start with
      whitespace; everything it cuts off is whitespace. */
  lemma {:induction false} TrimStartSpec(s: string)
    ensures |TrimStart(s)| <= |s| && TrimStart(s) == s[|s| - |TrimStart(s)|..]
    ensures AllWhitespace(s[..|s| - |TrimStart(s)|])
    ensures TrimStart(s) != [] ==> !IsWhitespace(TrimStart(s)[0])
    decreases |s|
  {
    if |s| > 0 && IsWhitespace(s[0]) {
      TrimStartSpec(s[1..]);
      var r := TrimStart(s[1..]);
      assert s[..|s| - |r|] == [s[0]] + s[1..][..|s| - 1 - |r|];
    }
  }

  /** TrimEnd keeps the longest prefix of `s` that does not end with
      whitespace; everything it cuts off is whitespace. */
  lemma {:induction false} TrimEndSpec(s: string)
    ensures |TrimEnd(s)| <= |s| && TrimEnd(s) == s[..|TrimEnd(s)|]
    ensures AllWhitespace(s[|TrimEnd(s)|..])
    ensures TrimEnd(s) != [] ==> !IsWhitespace(TrimEnd(s)[|TrimEnd(s)| - 1])
    decreases |s|
  {
    if |s| > 0 && IsWhitespace(s[|s| - 1]) {
      TrimEndSpec(s[..|s| - 1]);
      var r := TrimEnd(s[..|s| - 1]);
      assert s[|r|..] == s[..|s| - 1][|r|..] + [s[|s| - 1]];
    }
  }

  /** `s.trim()` is a slice of `s` with whitespace, and only whitespace, cut
      off at both ends. */
  lemma TrimSpec(s: string)
    ensures exists lo :: (0 <= lo <= |s| - |Trim(s)| && Trim(s) == s[lo..lo + |Trim(s)|]
      && AllWhitespace(s[..lo]) && AllWhitespace(s[lo + |Trim(s)|..]))
    ensures Trim(s) != [] ==> !IsWhitespace(Trim(s)[0]) && !IsWhitespace(Trim(s)[|Trim(s)| - 1])
  {
    var u := TrimStart(s);
    var r := TrimEnd(u);
    TrimStartSpec(s);
    TrimEndSpec(u);
    var lo := |s| - |u|;
    assert u == s[lo..];
    assert r == s[lo..lo + |r|] by {
      assert r == u[..|r|];
    }
    assert s[lo + |r|..] == u[|r|..];
    assert 0 <= lo <= |s| - |r| && r == s[lo..lo + |r|]
      && AllWhitespace(s[..lo]) && AllWhitespace(s[lo + |r|..]);
  }

  /** The three prefixes by which the relay recognises a protocol frame: a
      JSON-RPC object, a JSON-RPC batch, or a header line. */
  predicate StartsLikeFrame(s: string)
  {
    "{" <= s || "[{" <= s || "Content-Length" <= s
  }

  /** The relay's test for a complete line: its trimmed form is empty (a
      separator) or starts like a frame. Any other line is filtered. */
  predicate IsPassthrough(line: string)
  {
    var trimmed := Trim(line);
    |trimmed| == 0 || StartsLikeFrame(trimmed)
  }

  /** The same test stated without `trim()`: the line is whitespace only, or
      after some leading whitespace it starts like a frame. */
  ghost predicate LooksLikeFrame(line: string)
  {
    AllWhitespace(line)
    || exists k :: 0 <= k <= |line| && AllWhitespace(line[..k]) && StartsLikeFrame(line[k..])
  }

  /** An element of a whitespace-only slice is whitespace. */
  lemma WhitespaceIn(s: string, lo: int, hi: int, i: int)
    requires 0 <= lo <= i < hi <= |s| && AllWhitespace(s[lo..hi])
    ensures IsWhitespace(s[i])
  {
    assert s[lo..hi][i - lo] == s[i];
  }

  /** Cutting trailing whitespace keeps a prefix that ends in a
      non-whitespace character, and cannot create one. */
  lemma PrefixSurvivesTrimEnd(p: string, u: string)
    requires p != [] && !IsWhitespace(p[|p| - 1])
    ensures p <= TrimEnd(u) <==> p <= u
  {
    var t := TrimEnd(u);
    TrimEndSpec(u);
    if p <= u {
      assert u[|p| - 1] == p[|p| - 1];
      assert u[|t|..] == u[|t|..|u|];
      if |p| > |t| {
        WhitespaceIn(u, |t|, |u|, |p| - 1);
      }
      assert t[..|p|] == u[..|p|];
    }
    if p <= t {
      assert u[..|p|] == t[..|p|];
    }
  }

  /** Trailing whitespace never decides the classification. */
  lemma FrameSurvivesTrimEnd(u: string)
    ensures StartsLikeFrame(TrimEnd(u)) <==> StartsLikeFrame(u)
  {
    PrefixSurvivesTrimEnd("{", u);
    PrefixSurvivesTrimEnd("[{", u);
    PrefixSurvivesTrimEnd("Content-Length", u);
  }

  /** A frame start begins with a character that is not whitespace. */
  lemma FrameStartsWithNonWhitespace(s: string)
    requires StartsLikeFrame(s)
    ensures s != [] && !IsWhitespace(s[0])
  {
    if "Content-Length" <= s {
      assert s[0] == "Content-Length"[0];
    } else if "[{" <= s {
      assert s[0] == "[{"[0];
    } else {
      assert s[0] == "{"[0];
    }
  }

  /** The classification of the relay, characterised without `trim()`: a line
      is passed through exactly when it is whitespace only or, after its
      leading whitespace, begins with `{`, `[{` or `Content-Length`. */
  lemma PassthroughIff(line: string)
    ensures IsPassthrough(line) <==> LooksLikeFrame(line)
  {
    var u := TrimStart(line);
    var k0 := |line| - |u|;
    var t := TrimEnd(u);
    TrimStartSpec(line);
    TrimEndSpec(u);
    FrameSurvivesTrimEnd(u);
    assert t == Trim(line);
    // The trimmed line is empty exactly when the line is whitespace only.
    if |t| == 0 {
      assert u[|t|..] == u[0..|u|];
      if u != [] {
        WhitespaceIn(u, 0, |u|, 0);
      }
      assert line == line[..k0];
    }
    // Otherwise the leading whitespace ends exactly where the frame starts.
    if IsPassthrough(line) && !AllWhitespace(line) {
      assert StartsLikeFrame(line[k0..]);
    }
    if LooksLikeFrame(line) && !AllWhitespace(line) {
      var k :| 0 <= k <= |line| && AllWhitespace(line[..k]) && StartsLikeFrame(line[k..]);
      FrameStartsWithNonWhitespace(line[k..]);
      assert line[k..][0] == line[k];
      if k < k0 {
        WhitespaceIn(line, 0, k0, k);
      }
      if k > k0 {
        WhitespaceIn(line, 0, k, k0);
      }
      assert u == line[k..];
    }
  }

  /** A JSON-RPC request line is protocol traffic. */
  lemma JsonRpcRequestPasses()
    ensures IsPassthrough("{\"jsonrpc\":\"2.0\",\"id\":1,\"method\":\"ping\"}")
  {
    var line := "{\"jsonrpc\":\"2.0\",\"id\":1,\"method\":\"ping\"}";
    assert !IsWhitespace(line[0]) && !IsWhitespace(line[|line| - 1]);
    assert Trim(line) == line;
  }

  /** A header line is protocol traffic. */
  lemma ContentLengthPasses()
    ensures IsPassthrough("Content-Length: 42")
  {
    var line := "Content-Length: 42";
    assert !IsWhitespace(line[0]) && !IsWhitespace(line[|line| - 1]);
    assert Trim(line) == line;
  }

  /** A log message printed by the child on stdout is filtered. */
  lemma LogLineIsFiltered()
    ensures !IsPassthrough("Server started on port 3000")
  {
    var line := "Server started on port 3000";
    assert !IsWhitespace(line[0]) && !IsWhitespace(line[|line| - 1]);
    assert Trim(line) == line;
  }
}

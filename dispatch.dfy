/**
 Where the relay writes. Every write goes to one of three sinks: the
 program's own standard output, its standard error, or the diagnostic log
 file. A run of the program is described by the sequence of its writes in
 the order they happen; what one sink receives is the projection of that
 sequence onto it.
 */
module Dispatch {
  import opened Seqs
  import opened Classify

  datatype Sink = Stdout | Stderr | LogFile

  datatype Write = Write(sink: Sink, text: string)

  /** The tag in front of a filtered line on standard error. */
  const FilteredTag: string := "[FILTERED] "
  /** The tag in front of a filtered line in the log file. */
  const FilteredLogTag: string := "FILTERED: "

  /** The texts written to one sink, in the order they were written. */
  function Stream(writes: seq<Write>, sink: Sink): seq<string>
  {
    if |writes| == 0 then []
    else
      (if writes[0].sink == sink then [writes[0].text] else []) + Stream(writes[1..], sink)
  }

  lemma StreamSingle(w: Write, sink: Sink)
    ensures Stream([w], sink) == if w.sink == sink then [w.text] else []
  {
    assert [w][1..] == [];
    var h: seq<string> := if w.sink == sink then [w.text] else [];
    assert h + [] == h;
  }

  /** The writes for one complete line: a protocol line goes to standard
      output untouched, any other line to standard error and to the log,
      each time tagged. Exactly one of standard output and standard error
      receives the line, standard output exactly when the line passes. */
  function Route(line: string): (w: seq<Write>)
    ensures |Stream(w, Stdout)| + |Stream(w, Stderr)| == 1
    ensures IsPassthrough(line) <==> Stream(w, Stdout) == [line + "\n"]
    ensures !IsPassthrough(line) <==> Stream(w, Stderr) == [FilteredTag + line + "\n"]
    ensures !IsPassthrough(line) <==> Stream(w, LogFile) == [FilteredLogTag + line + "\n"]
    ensures IsPassthrough(line) ==> Stream(w, LogFile) == []
  {
    if IsPassthrough(line) then
      [Write(Stdout, line + "\n")]
    else
      var w := [Write(Stderr, FilteredTag + line + "\n"), Write(LogFile, FilteredLogTag + line + "\n")];
      assert w[1..][1..] == [];
      assert Stream(w[1..], Stdout) == [] && Stream(w[1..], Stderr) == [];
      assert Stream(w[1..], LogFile) == [FilteredLogTag + line + "\n"];
      w
  }

  /** The writes of the `forEach` over the complete lines of one chunk. */
  function DispatchAll(lines: seq<string>): seq<Write>
  {
    if |lines| == 0 then [] else Route(lines[0]) + DispatchAll(lines[1..])
  }

  /** The lines that pass, in arrival order. */
  function Passed(lines: seq<string>): (r: seq<string>)
    ensures forall i :: 0 <= i < |r| ==> IsPassthrough(r[i])
  {
    if |lines| == 0 then []
    else (if IsPassthrough(lines[0]) then [lines[0]] else []) + Passed(lines[1..])
  }

  /** The lines that are filtered, in arrival order. */
  function Filtered(lines: seq<string>): (r: seq<string>)
    ensures forall i :: 0 <= i < |r| ==> !IsPassthrough(r[i])
  {
    if |lines| == 0 then []
    else (if IsPassthrough(lines[0]) then [] else [lines[0]]) + Filtered(lines[1..])
  }

  /** Each line with a tag in front and a newline behind. */
  function Framed(tag: string, lines: seq<string>): (r: seq<string>)
    ensures |r| == |lines|
    ensures forall i :: 0 <= i < |r| ==> r[i] == tag + lines[i] + "\n"
  {
    if |lines| == 0 then [] else [tag + lines[0] + "\n"] + Framed(tag, lines[1..])
  }

  lemma {:induction false} StreamAppend(a: seq<Write>, b: seq<Write>, sink: Sink)
    ensures Stream(a + b, sink) == Stream(a, sink) + Stream(b, sink)
    decreases |a|
  {
    if |a| == 0 {
      assert a + b == b;
    } else {
      StreamAppend(a[1..], b, sink);
      ConsAppend(a, b);
      var h: seq<string> := if a[0].sink == sink then [a[0].text] else [];
      AppendAssoc(h, Stream(a[1..], sink), Stream(b, sink));
    }
  }

  lemma {:induction false} DispatchAllAppend(a: seq<string>, b: seq<string>)
    ensures DispatchAll(a + b) == DispatchAll(a) + DispatchAll(b)
    decreases |a|
  {
    if |a| == 0 {
      assert a + b == b;
    } else {
      DispatchAllAppend(a[1..], b);
      ConsAppend(a, b);
      AppendAssoc(Route(a[0]), DispatchAll(a[1..]), DispatchAll(b));
    }
  }

  /** One more line, at the end. */
  lemma DispatchAllSnoc(lines: seq<string>, line: string)
    ensures DispatchAll(lines + [line]) == DispatchAll(lines) + Route(line)
  {
    DispatchAllAppend(lines, [line]);
    assert [line][1..] == [];
    assert Route(line) + [] == Route(line);
  }

  /** The writes for the first `i + 1` lines extend those for the first `i`. */
  lemma DispatchAllPrefix(lines: seq<string>, i: int)
    requires 0 <= i < |lines|
    ensures DispatchAll(lines[..i + 1]) == DispatchAll(lines[..i]) + Route(lines[i])
  {
    assert lines[..i + 1] == lines[..i] + [lines[i]];
    DispatchAllSnoc(lines[..i], lines[i]);
  }

  lemma {:induction false} PassedAppend(a: seq<string>, b: seq<string>)
    ensures Passed(a + b) == Passed(a) + Passed(b)
    ensures Filtered(a + b) == Filtered(a) + Filtered(b)
    decreases |a|
  {
    if |a| == 0 {
      assert a + b == b;
    } else {
      PassedAppend(a[1..], b);
      ConsAppend(a, b);
      var p: seq<string> := if IsPassthrough(a[0]) then [a[0]] else [];
      var f: seq<string> := if IsPassthrough(a[0]) then [] else [a[0]];
      AppendAssoc(p, Passed(a[1..]), Passed(b));
      AppendAssoc(f, Filtered(a[1..]), Filtered(b));
    }
  }

  lemma {:induction false} FramedAppend(tag: string, a: seq<string>, b: seq<string>)
    ensures Framed(tag, a + b) == Framed(tag, a) + Framed(tag, b)
    decreases |a|
  {
    if |a| == 0 {
      assert a + b == b;
    } else {
      FramedAppend(tag, a[1..], b);
      ConsAppend(a, b);
      AppendAssoc([tag + a[0] + "\n"], Framed(tag, a[1..]), Framed(tag, b));
    }
  }

  /** The streams of one line, in the terms of the lemma below. */
  lemma RouteStreams(line: string)
    ensures Stream(Route(line), Stdout) == Framed("", Passed([line]))
    ensures Stream(Route(line), Stderr) == Framed(FilteredTag, Filtered([line]))
    ensures Stream(Route(line), LogFile) == Framed(FilteredLogTag, Filtered([line]))
  {
    assert [line][1..] == [];
    assert "" + line == line;
  }

  /** The streams a sequence of complete lines produces: standard output gets
      the passing lines unchanged, standard error and the log get the
      filtered lines with their tags, each in arrival order and nothing else. */
  lemma {:induction false} DispatchStreams(lines: seq<string>)
    ensures Stream(DispatchAll(lines), Stdout) == Framed("", Passed(lines))
    ensures Stream(DispatchAll(lines), Stderr) == Framed(FilteredTag, Filtered(lines))
    ensures Stream(DispatchAll(lines), LogFile) == Framed(FilteredLogTag, Filtered(lines))
    decreases |lines|
  {
    if |lines| > 0 {
      var line, rest := lines[0], lines[1..];
      DispatchStreams(rest);
      RouteStreams(line);
      assert lines == [line] + rest;
      PassedAppend([line], rest);
      StreamAppend(Route(line), DispatchAll(rest), Stdout);
      StreamAppend(Route(line), DispatchAll(rest), Stderr);
      StreamAppend(Route(line), DispatchAll(rest), LogFile);
      FramedAppend("", Passed([line]), Passed(rest));
      FramedAppend(FilteredTag, Filtered([line]), Filtered(rest));
      FramedAppend(FilteredLogTag, Filtered([line]), Filtered(rest));
    }
  }

  /** A single passing line is framed as itself with its newline. */
  lemma PassedOne(line: string)
    requires IsPassthrough(line)
    ensures Framed("", Passed([line])) == [line + "\n"]
  {
    var one: seq<string> := [line];
    assert one[1..] == [];
    assert Passed(one) == [line] + [];
    assert "" + line + "\n" == line + "\n";
  }

  /** Passing and filtered lines partition the complete lines: every line
      is one or the other, none is lost and none is duplicated. */
  lemma {:induction false} Partition(lines: seq<string>)
    ensures multiset(Passed(lines)) + multiset(Filtered(lines)) == multiset(lines)
    ensures |Passed(lines)| + |Filtered(lines)| == |lines|
    decreases |lines|
  {
    if |lines| > 0 {
      Partition(lines[1..]);
      MultisetCons(lines);
    }
  }
}

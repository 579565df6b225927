/**
 The wrapper process around the MCP server: the line buffer it keeps across
 data events of the child's standard output, the two data handlers, and the
 replay of a whole run as a sequence of events. The model of a run is the
 sequence of writes the wrapper makes (see module Dispatch).
 */
module Relay {
  import opened Seqs
  import opened Lines
  import opened Classify
  import opened Dispatch

  /** The line the log file is created with. */
  const StartMarker: string := "Starting wrapper\n"
  /** The tag of the log entry for every chunk of the child's stdout. */
  const RawStdoutTag: string := "RAW STDOUT: "
  /** The tag of the log entry for every chunk of the child's stderr. */
  const RawStderrTag: string := "RAW STDERR: "

  /** The writes of one data event on the child's stdout, the buffer being
      `buffer` before it: first the raw chunk to the log, then, line by line,
      what Route prescribes for each line the chunk completes. */
  function StdoutDataWrites(buffer: string, chunk: string): seq<Write>
  {
    [Write(LogFile, RawStdoutTag + chunk + "\n")] + DispatchAll(CompleteLines(buffer + chunk))
  }

  /** What each sink receives from one data event on the child's stdout:
      standard output the passing lines it completes, standard error the
      filtered ones with their tag, the log the raw chunk and then the
      filtered lines with their tag. */
  lemma StdoutDataStreams(buffer: string, chunk: string)
    ensures |StdoutDataWrites(buffer, chunk)| > 0
    ensures StdoutDataWrites(buffer, chunk)[0] == Write(LogFile, RawStdoutTag + chunk + "\n")
    ensures Stream(StdoutDataWrites(buffer, chunk), Stdout) == Framed("", Passed(CompleteLines(buffer + chunk)))
    ensures Stream(StdoutDataWrites(buffer, chunk), Stderr) ==
      Framed(FilteredTag, Filtered(CompleteLines(buffer + chunk)))
    ensures Stream(StdoutDataWrites(buffer, chunk), LogFile) ==
      [RawStdoutTag + chunk + "\n"] + Framed(FilteredLogTag, Filtered(CompleteLines(buffer + chunk)))
  {
    var raw := [Write(LogFile, RawStdoutTag + chunk + "\n")];
    var lines := CompleteLines(buffer + chunk);
    DispatchStreams(lines);
    StreamAppend(raw, DispatchAll(lines), Stdout);
    StreamAppend(raw, DispatchAll(lines), Stderr);
    StreamAppend(raw, DispatchAll(lines), LogFile);
  }

  /** The writes of one data event on the child's stderr: the chunk goes to
      the log with its tag and then to standard error unchanged. */
  function StderrDataWrites(chunk: string): seq<Write>
  {
    [Write(LogFile, RawStderrTag + chunk + "\n"), Write(Stderr, chunk)]
  }

  /** What each sink receives from one data event on the child's stderr:
      standard error the chunk unchanged, the log the chunk with its tag,
      standard output nothing. */
  lemma StderrDataStreams(chunk: string)
    ensures Stream(StderrDataWrites(chunk), Stderr) == [chunk]
    ensures Stream(StderrDataWrites(chunk), LogFile) == [RawStderrTag + chunk + "\n"]
    ensures Stream(StderrDataWrites(chunk), Stdout) == []
  {
    var log, err := Write(LogFile, RawStderrTag + chunk + "\n"), Write(Stderr, chunk);
    assert StderrDataWrites(chunk) == [log] + [err];
    StreamSingle(err, Stderr);
    StreamSingle(err, LogFile);
    StreamSingle(err, Stdout);
    StreamSingle(log, Stderr);
    StreamSingle(log, LogFile);
    StreamSingle(log, Stdout);
    StreamAppend([log], [err], Stderr);
    StreamAppend([log], [err], LogFile);
    StreamAppend([log], [err], Stdout);
  }

  /** The wrapper process: the buffer of the stdout handler and every write
      made so far, in order. */
  class Wrapper {
    var buffer: string
    var trace: seq<Write>

    /** The buffer holds at most one partial line. */
    ghost predicate Valid()
      reads this
    {
      NL !in buffer
    }

    /** Start-up: the log file is truncated and gets the start marker; the
        buffer is empty. */
    constructor ()
      ensures Valid()
      ensures buffer == "" && trace == [Write(LogFile, StartMarker)]
    {
      buffer := "";
      trace := [Write(LogFile, StartMarker)];
    }

    /** The handler of a data event on the child's stdout. */
    method OnStdoutData(chunk: string)
      requires Valid()
      modifies this
      ensures Valid()
      ensures buffer == Partial(old(buffer) + chunk)
      ensures trace == old(trace) + StdoutDataWrites(old(buffer), chunk)
      ensures old(buffer) + chunk == Terminated(CompleteLines(old(buffer) + chunk)) + buffer
      ensures NL !in chunk ==>
        buffer == old(buffer) + chunk && trace == old(trace) + [Write(LogFile, RawStdoutTag + chunk + "\n")]
    {
      ghost var before := buffer;
      trace := trace + [Write(LogFile, RawStdoutTag + chunk + "\n")];
      buffer := buffer + chunk;
      var lines := Split(buffer);
      buffer := lines[|lines| - 1];
      lines := lines[..|lines| - 1];
      ghost var logged := trace;
      OnLines(lines);
      AppendAssoc(old(trace), [Write(LogFile, RawStdoutTag + chunk + "\n")], DispatchAll(lines));
      Decomposition(before + chunk);
      if NL !in chunk {
        NoNewlineChunk(before, chunk);
        assert DispatchAll(lines) == [];
        assert trace == logged + [];
      }
    }

    /** `lines.forEach(...)`: each complete line handed to OnLine in turn. */
    method OnLines(lines: seq<string>)
      modifies this
      ensures buffer == old(buffer)
      ensures trace == old(trace) + DispatchAll(lines)
    {
      var i := 0;
      while i < |lines|
        invariant 0 <= i <= |lines|
        invariant buffer == old(buffer)
        invariant trace == old(trace) + DispatchAll(lines[..i])
      {
        OnLine(lines[i]);
        DispatchAllPrefix(lines, i);
        AppendAssoc(old(trace), DispatchAll(lines[..i]), Route(lines[i]));
        i := i + 1;
      }
      assert lines[..i] == lines;
    }

    /** The `forEach` callback: classify one complete line and write it to
        where it belongs. */
    method OnLine(line: string)
      modifies this
      ensures buffer == old(buffer)
      ensures trace == old(trace) + Route(line)
    {
      var trimmed := Trim(line);
      if |trimmed| == 0 || StartsLikeFrame(trimmed) {
        trace := trace + [Write(Stdout, line + "\n")];
      } else {
        trace := trace + [Write(Stderr, FilteredTag + line + "\n")];
        trace := trace + [Write(LogFile, FilteredLogTag + line + "\n")];
      }
    }

    /** The handler of a data event on the child's stderr. */
    method OnStderrData(chunk: string)
      modifies this
      ensures buffer == old(buffer)
      ensures trace == old(trace) + StderrDataWrites(chunk)
    {
      trace := trace + [Write(LogFile, RawStderrTag + chunk + "\n")];
      trace := trace + [Write(Stderr, chunk)];
    }

    /** One event, handed to the handler registered for its stream. */
    method Handle(e: Event)
      requires Valid()
      modifies this
      ensures Valid()
      ensures buffer == Step(old(buffer), e).buffer
      ensures trace == old(trace) + Step(old(buffer), e).writes
    {
      match e {
        case StdoutData(c) => OnStdoutData(c);
        case StderrData(c) => OnStderrData(c);
      }
    }

    /** Node's event loop handing the events to the two handlers one after
        another, each handler running to completion before the next event. */
    method Deliver(events: seq<Event>)
      requires Valid()
      modifies this
      ensures Valid()
      ensures buffer == Run(old(buffer), events).buffer
      ensures trace == old(trace) + Run(old(buffer), events).writes
    {
      var i := 0;
      while i < |events|
        invariant 0 <= i <= |events|
        invariant Valid()
        invariant buffer == Run(old(buffer), events[..i]).buffer
        invariant trace == old(trace) + Run(old(buffer), events[..i]).writes
      {
        ghost var b := buffer;
        Handle(events[i]);
        RunPrefix(old(buffer), events, i);
        AppendAssoc(old(trace), Run(old(buffer), events[..i]).writes, Step(b, events[i]).writes);
        i := i + 1;
      }
      assert events[..i] == events;
    }
  }

  /** What the child does: a chunk on its stdout or a chunk on its stderr. */
  datatype Event = StdoutData(chunk: string) | StderrData(chunk: string)

  /** The outcome of a sequence of events: the buffer left behind, the
      complete lines that were dispatched, and the writes made. */
  datatype Replay = Replay(buffer: string, lines: seq<string>, writes: seq<Write>)

  /** The effect of one event on a buffer. */
  function Step(buffer: string, e: Event): Replay
  {
    match e
    case StdoutData(c) => Replay(Partial(buffer + c), CompleteLines(buffer + c), StdoutDataWrites(buffer, c))
    case StderrData(c) => Replay(buffer, [], StderrDataWrites(c))
  }

  /** Standard output gets the passing lines of one event; standard error
      the filtered ones, when the event comes from the child's stdout. */
  lemma StepStreams(buffer: string, e: Event)
    ensures Stream(Step(buffer, e).writes, Stdout) == Framed("", Passed(Step(buffer, e).lines))
    ensures e.StdoutData? ==>
      Stream(Step(buffer, e).writes, Stderr) == Framed(FilteredTag, Filtered(Step(buffer, e).lines))
  {
    match e {
      case StdoutData(c) => StdoutDataStreams(buffer, c);
      case StderrData(c) => StderrDataStreams(c);
    }
  }

  /** The effect of a sequence of events, handled one after another. */
  function Run(buffer: string, events: seq<Event>): Replay
    decreases |events|
  {
    if |events| == 0 then Replay(buffer, [], [])
    else
      var first := Step(buffer, events[0]);
      var rest := Run(first.buffer, events[1..]);
      Replay(rest.buffer, first.lines + rest.lines, first.writes + rest.writes)
  }

  /** Everything the child wrote on its stdout, in order. */
  function StdoutText(events: seq<Event>): string
  {
    if |events| == 0 then ""
    else (if events[0].StdoutData? then events[0].chunk else "") + StdoutText(events[1..])
  }

  /** Events handled in two stretches have the effect of handling them all. */
  lemma {:induction false} RunAppend(buffer: string, e1: seq<Event>, e2: seq<Event>)
    ensures Run(buffer, e1 + e2) == Replay(
      Run(Run(buffer, e1).buffer, e2).buffer,
      Run(buffer, e1).lines + Run(Run(buffer, e1).buffer, e2).lines,
      Run(buffer, e1).writes + Run(Run(buffer, e1).buffer, e2).writes)
    decreases |e1|
  {
    if |e1| == 0 {
      assert e1 + e2 == e2;
    } else {
      var first := Step(buffer, e1[0]);
      RunAppend(first.buffer, e1[1..], e2);
      ConsAppend(e1, e2);
      var r2 := Run(Run(buffer, e1).buffer, e2);
      AppendAssoc(first.lines, Run(first.buffer, e1[1..]).lines, r2.lines);
      AppendAssoc(first.writes, Run(first.buffer, e1[1..]).writes, r2.writes);
    }
  }

  /** One more event after a run. */
  lemma RunStep(buffer: string, events: seq<Event>, e: Event)
    ensures Run(buffer, events + [e]).buffer == Step(Run(buffer, events).buffer, e).buffer
    ensures Run(buffer, events + [e]).writes ==
      Run(buffer, events).writes + Step(Run(buffer, events).buffer, e).writes
  {
    RunAppend(buffer, events, [e]);
    var s := Step(Run(buffer, events).buffer, e);
    assert [e][1..] == [];
    assert Run(Run(buffer, events).buffer, [e]) == Replay(s.buffer, s.lines + [], s.writes + []);
    assert s.lines + [] == s.lines && s.writes + [] == s.writes;
  }

  /** The first `i + 1` events are the first `i` and one more. */
  lemma RunPrefix(buffer: string, events: seq<Event>, i: int)
    requires 0 <= i < |events|
    ensures Run(buffer, events[..i + 1]).buffer == Step(Run(buffer, events[..i]).buffer, events[i]).buffer
    ensures Run(buffer, events[..i + 1]).writes ==
      Run(buffer, events[..i]).writes + Step(Run(buffer, events[..i]).buffer, events[i]).writes
  {
    assert events[..i + 1] == events[..i] + [events[i]];
    RunStep(buffer, events[..i], events[i]);
  }

  /** Chunking does not matter for the lines: whatever chunks the child's
      stdout arrives in, and whatever stderr events come in between, the
      complete lines dispatched are those of the whole text, and the buffer
      left behind is its partial last line. */
  lemma {:induction false} RunLines(buffer: string, events: seq<Event>)
    requires NL !in buffer
    ensures Run(buffer, events).lines == CompleteLines(buffer + StdoutText(events))
    ensures Run(buffer, events).buffer == Partial(buffer + StdoutText(events))
    decreases |events|
  {
    if |events| == 0 {
      assert buffer + "" == buffer;
      assert buffer == Terminated([]) + buffer;
      DecompositionUnique(buffer, [], buffer);
    } else {
      var rest := events[1..];
      match events[0]
      case StdoutData(c) =>
        RunLines(Partial(buffer + c), rest);
        LinesOfAppend(buffer + c, StdoutText(rest));
        AppendAssoc(buffer, c, StdoutText(rest));
      case StderrData(c) =>
        RunLines(buffer, rest);
        assert StdoutText(events) == "" + StdoutText(rest) == StdoutText(rest);
        assert [] + Run(buffer, rest).lines == Run(buffer, rest).lines;
    }
  }

  /** Standard output receives exactly the passing lines, each once, in
      arrival order and unchanged but for the newline behind it. */
  lemma {:induction false} RunStdout(buffer: string, events: seq<Event>)
    ensures Stream(Run(buffer, events).writes, Stdout) == Framed("", Passed(Run(buffer, events).lines))
    decreases |events|
  {
    if |events| > 0 {
      var first := Step(buffer, events[0]);
      var rest := Run(first.buffer, events[1..]);
      RunStdout(first.buffer, events[1..]);
      StepStreams(buffer, events[0]);
      StreamAppend(first.writes, rest.writes, Stdout);
      PassedAppend(first.lines, rest.lines);
      FramedAppend("", Passed(first.lines), Passed(rest.lines));
    }
  }

  /** Without stderr events from the child, standard error receives exactly
      the filtered lines, each once, in arrival order, with the filter tag. */
  lemma {:induction false} RunStderr(buffer: string, events: seq<Event>)
    requires forall i :: 0 <= i < |events| ==> events[i].StdoutData?
    ensures Stream(Run(buffer, events).writes, Stderr) == Framed(FilteredTag, Filtered(Run(buffer, events).lines))
    decreases |events|
  {
    if |events| > 0 {
      var first := Step(buffer, events[0]);
      var rest := Run(first.buffer, events[1..]);
      assert forall i :: 0 <= i < |events[1..]| ==> events[1..][i] == events[i + 1];
      RunStderr(first.buffer, events[1..]);
      StepStreams(buffer, events[0]);
      StreamAppend(first.writes, rest.writes, Stderr);
      PassedAppend(first.lines, rest.lines);
      FramedAppend(FilteredTag, Filtered(first.lines), Filtered(rest.lines));
    }
  }

  /** Two deliveries of the same stdout text, cut into chunks in any two
      ways, dispatch the same lines, leave the same buffer and produce the
      same standard output. */
  lemma ChunkingInvariance(buffer: string, e1: seq<Event>, e2: seq<Event>)
    requires NL !in buffer
    requires StdoutText(e1) == StdoutText(e2)
    ensures Run(buffer, e1).lines == Run(buffer, e2).lines
    ensures Run(buffer, e1).buffer == Run(buffer, e2).buffer
    ensures Stream(Run(buffer, e1).writes, Stdout) == Stream(Run(buffer, e2).writes, Stdout)
  {
    RunLines(buffer, e1);
    RunLines(buffer, e2);
    RunStdout(buffer, e1);
    RunStdout(buffer, e2);
  }

  /** Handling the chunks one after another has the effect, on the lines,
      the buffer and standard output, of handling their concatenation as a
      single chunk. */
  lemma ChunksAsOneChunk(buffer: string, events: seq<Event>)
    requires NL !in buffer
    ensures Run(buffer, events).lines == Run(buffer, [StdoutData(StdoutText(events))]).lines
    ensures Run(buffer, events).buffer == Run(buffer, [StdoutData(StdoutText(events))]).buffer
    ensures Stream(Run(buffer, events).writes, Stdout) ==
      Stream(Run(buffer, [StdoutData(StdoutText(events))]).writes, Stdout)
  {
    var whole := [StdoutData(StdoutText(events))];
    assert whole[1..] == [];
    assert StdoutText(whole) == StdoutText(events) + "";
    ChunkingInvariance(buffer, events, whole);
  }

  /** A single line, whatever chunks it is delivered in, is dispatched once
      and as a whole; if it passes, standard output gets it unchanged. */
  lemma OneLineAnyChunking(events: seq<Event>, line: string)
    requires NL !in line && StdoutText(events) == line + "\n"
    ensures Run("", events).lines == [line]
    ensures Run("", events).buffer == ""
    ensures IsPassthrough(line) ==> Stream(Run("", events).writes, Stdout) == [line + "\n"]
  {
    var text := "" + StdoutText(events);
    assert text == Terminated([line]) + "";
    DecompositionUnique(text, [line], "");
    RunLines("", events);
    RunStdout("", events);
    if IsPassthrough(line) {
      PassedOne(line);
    }
  }

  /** A frame cut in two by a chunk boundary is reassembled and passed
      through as one line. */
  lemma SplitFrameIsReassembled(line: string, events: seq<Event>)
    requires line == "{\"jsonrpc\":\"2.0\"}"
    requires events == [StdoutData(line[..10]), StdoutData(line[10..] + "\n")]
    ensures Run("", events).lines == [line]
    ensures Stream(Run("", events).writes, Stdout) == [line + "\n"]
  {
    assert events[1..][1..] == [];
    assert StdoutText(events[1..]) == line[10..] + "\n" + "";
    assert line[..10] + (line[10..] + "\n" + "") == line + "\n";
    assert TrimStart(line) == line && TrimEnd(line) == line;
    assert "{" <= line;
    OneLineAnyChunking(events, line);
  }
}

# n8n-mcp-filter: the stdout line filter, modelled in Dafny

`docker/n8n-mcp-filter.js` is a wrapper process. It starts an MCP server as a
child and relays the child's output. The child's standard output carries
protocol frames (JSON-RPC objects and batches, `Content-Length` headers,
blank separators), but log messages can get mixed into it. The wrapper
keeps one string, `buffer`, across the data events of that stream:

- it appends each chunk to the buffer;
- it splits the buffer on `'\n'`;
- it keeps the last, unterminated segment as the new buffer;
- it classifies every complete line.

A line whose trimmed form is empty, or starts with `{`, `[{` or
`Content-Length`, goes to the wrapper's own standard output unchanged. Any
other line goes to standard error, tagged `[FILTERED] `, and to the log
file, tagged `FILTERED: `. Each stdout chunk is also logged raw. The
child's standard error is logged and copied to the wrapper's standard
error unchanged.

The model has five modules. `Seqs` holds sequence helpers; the other four are:

- `Lines` models `split('\n')` and `pop()` (`Split`, `CompleteLines`,
  `Partial`). It proves the facts that make the relay independent of how
  output is cut into chunks.
- `Classify` models JavaScript's `trim()` over the ECMAScript whitespace set
  and the prefix test `IsPassthrough`. It characterises the test without
  `trim()`.
- `Dispatch` describes effects as one ordered trace of writes, each tagged
  with its sink: standard output, standard error or the log file. `Stream`
  projects the trace onto one sink; `Route` gives the writes for one line.
- `Relay` holds the class `Wrapper`, with the fields `buffer` and `trace`.
  Its methods are the two data handlers and the `forEach` callback, written
  as imperative code. The module also has a replay function, `Run`, over a
  sequence of child events. With it the model proves chunking invariance,
  order and the partition of lines between standard output and standard
  error.

## Model

| member | source | states |
|---|---|---|
| Lines.Split | docker/n8n-mcp-filter.js:19 | `split('\n')` gives at least one segment, and no segment holds a newline |
| Lines.JoinSplit | docker/n8n-mcp-filter.js:19 | joining the segments of the split with newlines gives back the buffer, so the split loses and adds nothing |
| Lines.SplitJoin | docker/n8n-mcp-filter.js:19 | splitting the join of newline-free segments gives back those segments, so split and join are inverses |
| Lines.CompleteLines | docker/n8n-mcp-filter.js:19-20 | the lines handed to `forEach` (all segments but the popped one) hold no newline |
| Lines.Partial | docker/n8n-mcp-filter.js:20 | the popped segment that becomes the new buffer holds no newline |
| Lines.JoinAsTerminated | docker/n8n-mcp-filter.js:19-20 | the join of the segments is every segment but the last, each followed by a newline, and then the last |
| Lines.Decomposition | docker/n8n-mcp-filter.js:18-20 | old buffer plus chunk equals the emitted lines, each followed by `'\n'`, followed by the new buffer |
| Lines.DecompositionUnique | docker/n8n-mcp-filter.js:18-20 | any newline-free lines and newline-free tail that rebuild the text are exactly the emitted lines and the new buffer |
| Lines.SplitPrepend | docker/n8n-mcp-filter.js:18-19 | a newline-free prefix joins the first segment of the rest, so a partial line is glued to the next chunk |
| Lines.SplitAfterLine | docker/n8n-mcp-filter.js:19 | a newline-free segment followed by a newline is split off as one segment |
| Lines.SplitNoNewline | docker/n8n-mcp-filter.js:19 | text without a newline splits into itself alone |
| Lines.SplitAfterTerminated | docker/n8n-mcp-filter.js:19 | newline-terminated lines in front of any text are split off unchanged, one by one |
| Lines.LinesAfterTerminated | docker/n8n-mcp-filter.js:19-20 | complete lines in front of a text are emitted as they are and do not change the new buffer |
| Lines.LinesOfAppend | docker/n8n-mcp-filter.js:18-20 | the lines of `s + t` are the lines of `s`, then the lines of `s`'s partial tail extended by `t`; the buffers agree too |
| Lines.NoNewlineChunk | docker/n8n-mcp-filter.js:18-22 | a chunk without a newline completes no line, and the buffer just grows by the chunk |
| Lines.LineCount | docker/n8n-mcp-filter.js:19-20 | there is exactly one complete line per newline in the text |
| Classify.TrimStartSpec | docker/n8n-mcp-filter.js:23 | removing leading whitespace keeps a suffix, cuts only whitespace, and leaves no leading whitespace |
| Classify.TrimEndSpec | docker/n8n-mcp-filter.js:23 | removing trailing whitespace keeps a prefix, cuts only whitespace, and leaves no trailing whitespace |
| Classify.TrimSpec | docker/n8n-mcp-filter.js:23 | `trim()` is a slice of the line with only whitespace cut at both ends, and it neither starts nor ends with whitespace |
| Classify.IsWhitespace | docker/n8n-mcp-filter.js:23 | the characters `trim()` removes: ECMAScript WhiteSpace and LineTerminator; used by TrimStart and TrimEnd, whose lemmas TrimStartSpec and TrimEndSpec state what is cut |
| Classify.TrimStart | docker/n8n-mcp-filter.js:23 | the leading half of `line.trim()`; specified by TrimStartSpec: a suffix, only whitespace cut, no leading whitespace left |
| Classify.TrimEnd | docker/n8n-mcp-filter.js:23 | the trailing half of `line.trim()`; specified by TrimEndSpec: a prefix, only whitespace cut, no trailing whitespace left |
| Classify.Trim | docker/n8n-mcp-filter.js:23 | `line.trim()`; specified by TrimSpec: a slice with only whitespace cut at both ends, neither starting nor ending with whitespace |
| Classify.PrefixSurvivesTrimEnd | docker/n8n-mcp-filter.js:23-25 | cutting trailing whitespace neither creates nor destroys a prefix that ends in a non-whitespace character |
| Classify.FrameSurvivesTrimEnd | docker/n8n-mcp-filter.js:23-25 | trailing whitespace never changes whether the line starts with `{`, `[{` or `Content-Length` |
| Classify.FrameStartsWithNonWhitespace | docker/n8n-mcp-filter.js:25 | each of the three frame prefixes starts with a non-whitespace character |
| Classify.PassthroughIff | docker/n8n-mcp-filter.js:23-25 | a line passes exactly when it is all whitespace, or starts with `{`, `[{` or `Content-Length` after its leading whitespace (both directions) |
| Classify.IsPassthrough | docker/n8n-mcp-filter.js:23-25 | the condition of the `if`; specified by PassthroughIff: the line is all whitespace, or starts with `{`, `[{` or `Content-Length` after its leading whitespace |
| Classify.JsonRpcRequestPasses | docker/n8n-mcp-filter.js:24-25 | a JSON-RPC request line passes |
| Classify.ContentLengthPasses | docker/n8n-mcp-filter.js:24-25 | a `Content-Length` header line passes |
| Classify.LogLineIsFiltered | docker/n8n-mcp-filter.js:25-29 | the log line `Server started on port 3000` is filtered |
| Dispatch.Route | docker/n8n-mcp-filter.js:25-31 | each line reaches exactly one of stdout and stderr. Stdout gets `line + '\n'` exactly when the line passes. Stderr gets `[FILTERED] ` + line + `'\n'` and the log gets `FILTERED: ` + line + `'\n'` exactly when it does not. A passing line writes nothing to the log |
| Dispatch.DispatchAll | docker/n8n-mcp-filter.js:22-32 | the writes of the `forEach`; specified by DispatchStreams: stdout gets exactly the passing lines in order, stderr and the log exactly the filtered ones, tagged, in order |
| Dispatch.Passed | docker/n8n-mcp-filter.js:25-26 | every line kept for stdout passes the test |
| Dispatch.Filtered | docker/n8n-mcp-filter.js:25-30 | every line kept for stderr fails the test |
| Dispatch.Framed | docker/n8n-mcp-filter.js:26-30 | one output per line, each the tag, then the line, then `'\n'` |
| Dispatch.StreamAppend | docker/n8n-mcp-filter.js:22-32 | what a sink receives from two stretches of writes is what it receives from each, in order |
| Dispatch.DispatchAllAppend | docker/n8n-mcp-filter.js:22-32 | dispatching two runs of lines writes the writes of the first run, then those of the second |
| Dispatch.DispatchAllSnoc | docker/n8n-mcp-filter.js:22-32 | one more line adds exactly that line's writes at the end |
| Dispatch.DispatchAllPrefix | docker/n8n-mcp-filter.js:22-32 | the writes for the first i+1 lines are those for the first i lines, then those of line i |
| Dispatch.PassedAppend | docker/n8n-mcp-filter.js:22-32 | the passing and the filtered lines of two runs are those of each run, in order |
| Dispatch.FramedAppend | docker/n8n-mcp-filter.js:22-32 | tagging commutes with concatenation |
| Dispatch.RouteStreams | docker/n8n-mcp-filter.js:25-31 | a single line's streams, written as the passing and filtered lists of a one-line sequence |
| Dispatch.DispatchStreams | docker/n8n-mcp-filter.js:22-32 | over all complete lines: stdout gets exactly the passing lines, unchanged, in order. Stderr gets exactly the filtered lines tagged `[FILTERED] `, in order. The log gets the same lines tagged `FILTERED: ` |
| Dispatch.PassedOne | docker/n8n-mcp-filter.js:25-26 | a single passing line reaches stdout as itself plus `'\n'` |
| Dispatch.Partition | docker/n8n-mcp-filter.js:22-32 | passing and filtered lines together are the complete lines as a multiset: every line gets one outcome, none is lost, none is duplicated |
| Relay.StdoutDataStreams | docker/n8n-mcp-filter.js:16-33 | what a stdout chunk writes:<br>• first the raw chunk to the log as `RAW STDOUT: ` + chunk + `'\n'`;<br>• stdout gets the passing lines it completes;<br>• stderr gets the filtered lines, tagged;<br>• the log then gets the filtered lines, tagged |
| Relay.StderrDataStreams | docker/n8n-mcp-filter.js:35-38 | a stderr chunk reaches stderr unchanged and the log as `RAW STDERR: ` + chunk + `'\n'`; stdout gets nothing |
| Relay.StdoutDataWrites | docker/n8n-mcp-filter.js:16-32 | the writes of one stdout data event; specified by StdoutDataStreams: the raw log write first, then the per-sink streams of the completed lines |
| Relay.StderrDataWrites | docker/n8n-mcp-filter.js:35-38 | the writes of one stderr data event; specified by StderrDataStreams: stderr gets the chunk, the log the tagged chunk, stdout nothing |
| Relay.Wrapper.constructor | docker/n8n-mcp-filter.js:5-14 | at start the log holds only the start marker and the buffer is empty |
| Relay.Wrapper.OnStdoutData | docker/n8n-mcp-filter.js:16-33 | the handler keeps the buffer newline-free and sets it to the popped segment. It appends the raw log write and then every complete line's writes to the trace. Old buffer plus chunk is the emitted lines, each followed by a newline, then the new buffer. A chunk without a newline only grows the buffer and logs the chunk |
| Relay.Wrapper.OnLines | docker/n8n-mcp-filter.js:22-32 | the `forEach` loop appends each line's writes in order and leaves the buffer alone |
| Relay.Wrapper.OnLine | docker/n8n-mcp-filter.js:23-31 | the callback appends exactly `Route(line)` to the trace |
| Relay.Wrapper.OnStderrData | docker/n8n-mcp-filter.js:35-38 | the stderr handler appends the log write, then the stderr write; the buffer is untouched |
| Relay.Wrapper.Handle | docker/n8n-mcp-filter.js:16-38 | an event goes to the handler for its stream, with the effect `Step` describes |
| Relay.Wrapper.Deliver | docker/n8n-mcp-filter.js:16-38 | handling a sequence of events one by one leaves the buffer and the trace that the replay `Run` gives |
| Relay.StepStreams | docker/n8n-mcp-filter.js:16-38 | one event sends exactly its passing lines to stdout; a stdout event sends exactly its filtered lines, tagged, to stderr |
| Relay.Step | docker/n8n-mcp-filter.js:16-38 | one event handled by its handler; specified by StepStreams and, with Run, by RunLines |
| Relay.Run | docker/n8n-mcp-filter.js:16-38 | the events handled one after another; specified by RunLines (lines and buffer are those of the whole stdout text), RunStdout and RunStderr (streams in order) |
| Relay.StdoutText | docker/n8n-mcp-filter.js:16-18 | everything the child wrote on its stdout, in order; RunLines states that the lines and the buffer depend on this text alone |
| Relay.RunAppend | docker/n8n-mcp-filter.js:16-38 | handling two stretches of events in turn is handling all of them |
| Relay.RunStep | docker/n8n-mcp-filter.js:16-38 | one more event after a run extends the buffer and the writes by that event's step |
| Relay.RunPrefix | docker/n8n-mcp-filter.js:16-38 | handling the first i+1 events is handling the first i events, then event i |
| Relay.RunLines | docker/n8n-mcp-filter.js:16-20 | however the child's stdout is cut into chunks, and whatever stderr events come between, the lines are those of the whole text and the buffer is its partial last line |
| Relay.RunStdout | docker/n8n-mcp-filter.js:22-32 | over a whole run, stdout receives exactly the passing lines, each once, in arrival order, plus `'\n'` |
| Relay.RunStderr | docker/n8n-mcp-filter.js:22-32 | over a run with stdout events only, stderr receives exactly the filtered lines, tagged, each once, in arrival order |
| Relay.ChunkingInvariance | docker/n8n-mcp-filter.js:16-20 | two event sequences with the same stdout text dispatch the same lines and leave the same buffer. Stdout receives the same text from both |
| Relay.ChunksAsOneChunk | docker/n8n-mcp-filter.js:16-20 | handling the chunks one by one has the effect of handling their concatenation as one chunk: same lines, buffer and stdout |
| Relay.OneLineAnyChunking | docker/n8n-mcp-filter.js:16-26 | a single line is dispatched whole and once, whatever chunks it arrives in. A passing line reaches stdout unchanged |
| Relay.SplitFrameIsReassembled | docker/n8n-mcp-filter.js:16-26 | a JSON-RPC frame cut across two chunks is reassembled and reaches stdout as one line |

## Left out

- Spawning the child and wiring its stdio (docker/n8n-mcp-filter.js:1-2 and 9-12): this is operating-system process creation. The model takes the child's output as a given sequence of events.
- Exit-code propagation on `close` (docker/n8n-mcp-filter.js:40-42) and signal forwarding (docker/n8n-mcp-filter.js:45-46): event and OS plumbing with no state the filter depends on.
- File and stream I/O: `writeFileSync`, `appendFileSync` and `process.stdout/stderr.write` are modelled as writes appended to one trace and tagged with their sink. Truncating the log at start is modelled as the trace starting with the start marker. The path `/wrapper.log`, write failures and partial writes are not modelled.
- `data.toString()`: chunks are already-decoded strings. Decoding bytes as UTF-8, and a multi-byte character split across chunks, are not modelled. Copying the child's stderr byte for byte is modelled as copying the decoded string.
- Strings: Dafny strings are sequences of Unicode scalar values, while JavaScript strings are UTF-16 code units. Every character `trim()` removes and every character the filter tests is in the Basic Multilingual Plane, so the classification is the same.
- Flushing at exit: the code never classifies the partial line left in the buffer when the child exits, and the model does not either.
- Relay.RunStderr: covers runs whose events all come from the child's stdout. When the child's stderr is interleaved, stderr also gets those raw chunks. `StderrDataStreams` and `StepStreams` state that per event.

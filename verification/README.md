# Streaming chat and automation, modelled and proved

This project models the two engines of the service that carry real invariants, and proves what
they promise.

**The chat engine.** Model replies arrive as server-sent events in arbitrary chunks. Two
incremental parsers cut the text into blocks, separate `<think>…</think>` from visible text while
holding back a tail that could still become a marker, and assemble tool calls from fragments. An
agent loop sends growing transcripts, runs tools, takes back replies that claim a write nobody
made, and saves one turn; a translator carries transcripts to the OpenAI wire format.

**The automation engine.** Validated, versioned policies are read by a tick, an evaluator decides
on a move, a risk gate reads the policy again, an executor carries the plan out, and everything is
written to an audit log that several writers append to at once. A funding ledger records deposits.

`dafny verify dfyconfig.toml` checks everything.

## How it is put together

- Code that changes state in place is a class or a method with loops (`OpenAiAccumulator`,
  `AnthropicAccumulator`, the stores, `RunTurns`, `AnthropicToOpenAiMessages`, `TakeTurn`, …). Each is proved
  to compute a function on values, and the theorems are about that function.
- Streams: `Text`, `Json`, `StreamEvents`, `ThinkSplitter`, `SseFraming`, `ToolAssembly`,
  `StreamParser`, `AnthropicParser`;
  `OpenAiWire` and `AnthropicWire` are the other end of a stream: how a provider writes it down.
- Agents: `Transcript`, `OpenAiCompatible`, `ChatEngine`, `TurnStream`, `FabricationGuard`,
  `ChatAgent`.
- Automation: `Arithmetic`, `Sequences`, `StableSort`, `PolicySchema`, `PolicyStore`, `Evaluator`, `Decisions`,
  `Convergence`, `RiskGate`, `Tick`, `Scheduler`, `ConcurrentTurns`, `AuditStore`, `AuditProtocol`, `GatewayRetry`,
  `Executor`, `ExecutorRuns`, `SoloExecution`, `FundingStore`.
- Whatever the code calls but does not define is a parameter that every theorem quantifies over:
  the model's replies, tool results, JSON reading and writing, UUIDs, chain and gateway calls,
  clocks and latencies, other tasks' calls, and the order in which a hash map yields its keys.
- Integer widths are explicit: versions wrap at 2^32, token amounts at 2^256, `as u32` saturates.
  Rates, prices and costs are real numbers.

## Where the code does less than one would expect

- A `[DONE]` line makes the OpenAI parser return with the rest of the buffer unread, so events
  depend on chunk boundaries whenever a complete block follows it. `OpenAiChunkInvariance` gives the
  exact condition, `EarlyDone` such a stream, `CutAfterStop` a chunking that shows the difference, and `Taken` how
  much is read.
- A held-back tail is sent only by one of three known finish reasons. A stream that ends otherwise drops
  it: `SaysEverythingExactlyWhen` and `StreamSays` say exactly when nothing is lost, `DoneDropsTail` shows a
  loss. Text behind the last blank line of a body is never read at all: `UnclosedIsDropped` shows it, and the
  two `UnclosedLostExactlyWhen` say for each format exactly when that loses anything.
- An empty id in a later fragment replaces the id that was sent by one the code makes up
  (`RealIdKeptExactlyWhen`, `EmptyIdReplacesSentOne`).
- Fragments of different tool calls commute unless both make an id up (`DistinctIndicesCommute`).
- The tool description at `src/core/llm/chat_agent.rs:94-95` promises that any reply claiming a commit without a
  matching tool call is retracted. `GuardReach` says exactly which of these replies are. Three families are
  not, each with an input: a claim in an earlier turn (`EarlierClaimIsSaved`), a claim beside a call of another
  write tool (`PauseAcquitsCommitClaim`), and any claim of a run out of turns (`OutOfTurnsIsUnchecked`).
- The evaluator can plan moves the executor has no route for: `PlannedMoveHasRouteExactlyWhen`, with
  `ArbitrumToArcIsStranded` as an input.
- The executor does not pass on the planned amount of a supply, and adds a fee buffer to that of a bridge: a move
  capped by the policy asks to supply everything, and a move of the whole holding to deposit more than there is.
  `AmountsAskedExactly` says exactly when, `MovesThatAskForMore` shows one of each.
- Positions that come from the fetcher never meet the policy's daily quota or cooldown (`FetchedMeetsNoLimit`).
- Nothing keeps two turns of one user apart: a tick on demand can run beside the cron cycle, and both can execute
  plans made from one position. `SpendTwiceExactlyWhen` says exactly when, `AllIdleIsSpentTwice` shows a schedule.
- Two reports of one transaction with different amounts count by whichever came first
  (`SwapShowsExactlyWhen`).
- Versions come round after 2^32 puts (`SameVersionExactlyWhen`, `WrappedVersionHidesChange`) where the build
  lets the addition wrap; a build with overflow checks would panic there instead.

## Model

| member | source | states |
|---|---|---|
| `ThinkSplitter.Hold` | src/core/llm/stream_parser.rs:163-172 | The held-back tail is the longest suffix that is a proper prefix of the awaited marker: it is one, and no longer suffix is. |
| `ThinkSplitter.SettledHead` | src/core/llm/stream_parser.rs:163-185 | Text released before the tail can never take part in a later marker: for every continuation the next match and the next tail are those of tail plus continuation. |
| `ThinkSplitter.SplitResumes` | src/core/llm/stream_parser.rs:139-194 | Splitting a text at once equals splitting any first part and resuming on the held-back tail: same state, same tagged characters. |
| `ThinkSplitter.SplitRests` | src/core/llm/stream_parser.rs:163-193 | Between calls the pending text is always a proper prefix of the marker being awaited. |
| `ThinkSplitter.RestingIsFixed` | src/core/llm/stream_parser.rs:144-193 | In every such state an empty chunk changes nothing and sends nothing. |
| `ThinkSplitter.ChunkInvariance` | src/core/llm/stream_parser.rs:139-194 | For every reachable state and every cutting of a text into chunks: the final state is that of the text in one piece, and so are the deltas once adjacent ones of a kind are merged. |
| `ThinkSplitter.CoalesceIsGroup` | src/core/llm/stream_parser.rs:151-191 | Merged deltas depend on the mode-tagged characters alone, not on how they were cut up. |
| `ThinkSplitter.SentTextIsFinal` | src/core/llm/stream_parser.rs:144-193 | What was sent is a prefix of what any longer chunk would have sent, under the same modes. |
| `ThinkSplitter.HeldTextIsNeeded` | src/core/llm/stream_parser.rs:148-184 | Holding back is minimal: for every resting state there is a continuation that turns the whole held-back tail into a marker, with no output and the mode flipped. |
| `ThinkSplitter.EveryInputHasReading` | src/core/llm/stream_parser.rs:139-194 | Conservation: every input is segments joined by the alternating exact markers, plus the pending tail; no segment, tail included, contains the marker of its mode, even across segment and tail. |
| `ThinkSplitter.ReadingUnique` | src/core/llm/stream_parser.rs:139-194 | That decomposition, which is stated without any search, is unique. |
| `ThinkSplitter.ReadingDeterminesSplit` | src/core/llm/stream_parser.rs:139-194 | Every such decomposition of an input gives exactly the deltas and the state the splitter computes. |
| `ThinkSplitter.RunMeansReading` | src/core/llm/stream_parser.rs:122-194 | A whole run over any chunks sends the segments of the joined input, and the flush on finish sends the tail, so output and input differ by the markers alone. |
| `StreamParser.NoTailExactlyWhen` | src/core/llm/stream_parser.rs:163-185 | Said without a search: an input leaves no tail if and only if it is segments and markers alone. |
| `StreamParser.OpenAiAccumulator.HoldBack` | src/core/llm/stream_parser.rs:163-172 | The descending search finds exactly the longest held-back tail. |
| `StreamParser.OpenAiAccumulator.SplitInlineThink` | src/core/llm/stream_parser.rs:139-194 | The in-place loop over the buffer appends the specified deltas to the events and leaves the specified pending text and mode. |
| `ThinkSplitter.ThoughtIsSeparated` | src/core/llm/stream_parser.rs:139-194 | For every text before, thought and text behind: `<think>` and `</think>` around the thought are cut out and each part is sent under its own mode. |
| `SseFraming.BlocksAreTheBuffer` | src/core/llm/stream_parser.rs:48-50 | The complete blocks, each followed by a blank line, and the leftover are the whole buffer; the leftover holds no complete block. |
| `SseFraming.TerminatedIsCut` | src/core/llm/stream_parser.rs:48-50 | The other way round: blocks that hold no blank line, written one after another, are cut exactly where they were joined. |
| `SseFraming.BlocksAppend` | src/core/llm/stream_parser.rs:48-50 | More text never changes a block that was already cut: it only adds blocks cut from the leftover. |
| `SseFraming.ParseHandlesAll` | src/core/llm/stream_parser.rs:48-60 | When no early-return block precedes the last complete one, a call handles every complete block in order and keeps exactly the leftover. |
| `SseFraming.ChunkInvariance` | src/core/llm/stream_parser.rs:48-60 | For any block handler and stream: every chunking gives the events, tool calls, leftover and state of one call on the whole, if and only if no early-return block precedes the last complete block. |
| `SseFraming.CutAfterStop` | src/core/llm/stream_parser.rs:58-60 | Counterexample for every other stream: cutting right behind the early-return block lets the next call consume text that one call leaves in the buffer. |
| `SseFraming.FeedTakes` | src/core/llm/stream_parser.rs:48-60 | Whatever the chunks and wherever a call returns early, a stream read handles exactly the first `Taken` blocks of the whole stream, each once and in order, and leaves exactly the text behind them. |
| `SseFraming.Taken` | src/core/llm/stream_parser.rs:48-60 | How many blocks that is, from the chunk boundaries alone: never more than the stream has; with each chunk one call goes on where the one before left off, up to its first early return. |
| `SseFraming.AllTakenExactlyWhen` | src/core/llm/stream_parser.rs:48-60 | All blocks are read if and only if the last call meets no early return before the last block of what was left to it. |
| `SseFraming.ClosingCompletes` | src/core/llm/stream_parser.rs:48-50 | A closing blank line completes exactly one more block: the leftover text, without an LF that ends it. |
| `SseFraming.ClosingHandles` | src/core/llm/stream_parser.rs:48-60 | For every stream and chunking: a closing blank line makes exactly the blocks left unread and the unclosed last one be handled, up to the first early return. |
| `SseFraming.ClosingMattersExactlyWhen` | src/core/llm/stream_parser.rs:48-60 | When all complete blocks have been read, it changes what is sent, called or held if and only if handling the unclosed block does. |
| `SseFraming.DroppedBlocks` | src/core/llm/stream_parser.rs:48-50 | The text behind the first n blocks holds exactly the later blocks, and behind all of them it is the leftover. |
| `SseFraming.FeedAllKeeps` | src/core/llm/stream_parser.rs:41-137 | What every block handler keeps of the state, the events and the calls, every stream read keeps. |
| `StreamParser.OpenAiChunkInvariance` | src/core/llm/stream_parser.rs:41-137 | OpenAI streams are chunk invariant exactly when no `[DONE]` line stands before the last complete block. |
| `AnthropicParser.AnthropicChunkInvariance` | src/core/llm/stream_parser.rs:228-356 | Anthropic streams are chunk invariant without condition: same events, calls, leftover and accumulator. |
| `ToolAssembly.Absorb` | src/core/llm/stream_parser.rs:92-119 | A fragment never shrinks the slots and makes its own index exist. |
| `ToolAssembly.Assembly` | src/core/llm/stream_parser.rs:91-120 | After any fragments since a flush, slot i holds the in-order concatenation of the argument pieces for index i, the last name sent for it, and the last id sent for it if that is not empty; if it is empty or missing, the slot has no id or a made-up one, and a made-up one if it has a name. There are no slots beyond the highest index. |
| `ToolAssembly.SentIdKeptExactlyWhen` | src/core/llm/stream_parser.rs:105-118 | A named slot carries the last id sent for it if and only if that id is not empty; otherwise its id is made up. |
| `ToolAssembly.RealIdKeptExactlyWhen` | src/core/llm/stream_parser.rs:105-118 | A named slot for which a real id was sent (one the code does not itself make up) keeps it if and only if no empty id was sent after it. |
| `ToolAssembly.EmptyIdReplacesSentOne` | src/core/llm/stream_parser.rs:105-118 | Concrete input: an empty id after a real one makes the code replace the real one by a made-up id. |
| `ToolAssembly.NamedIndicesAre` | src/core/llm/stream_parser.rs:28-31 | The flush order lists every named slot once, in increasing index order, and no other. |
| `ToolAssembly.FlushInIndexOrder` | src/core/llm/stream_parser.rs:28-38 | A flush yields exactly one call per named slot, in index order, with its arguments parsed or null. |
| `ToolAssembly.AbsorbAllIdentifies` | src/core/llm/stream_parser.rs:116-118 | After any fragments no named slot lacks an id. |
| `ToolAssembly.FlushedCallsAreCallable` | src/core/llm/stream_parser.rs:28-38 | Every flushed call has a non-empty id and a non-empty name. |
| `ToolAssembly.DistinctIndicesCommute` | src/core/llm/stream_parser.rs:91-120 | Fragments for different indices commute if and only if they do not both make an id up from different UUIDs. |
| `ToolAssembly.FlushedOnce` | src/core/llm/stream_parser.rs:58-131 | Each fragment reaches one flush only: calls up to a flush are those gathered since the last one, and a second flush point (`finish_reason`, then `[DONE]`) adds nothing. |
| `ToolAssembly.AssembledByBatch` | src/core/llm/stream_parser.rs:58-131 | For any pieces and flush points: flush by flush, one call for each index that got a name since the flush before, in index order, with the arguments read from the concatenated pieces for that index. |
| `StreamParser.CallsAreAssembled` | src/core/llm/stream_parser.rs:48-137 | Applying any lines gives the calls and slots the assembler gives for their fragments and flush points, whatever text travels between. |
| `StreamParser.ContentAcrossLines` | src/core/llm/stream_parser.rs:85-130 | For any lines: what their content sends and the think state are those of the spans of joined content between finishing choices, each split in one piece, however content is spread over lines. |
| `StreamParser.StreamReadsLines` | src/core/llm/stream_parser.rs:41-137 | A stream read, whatever the chunks, is the application of the lines of the blocks it handles, each block up to and including `[DONE]`, and leaves exactly the text behind them; these are all blocks unless a `[DONE]` precedes the last. |
| `StreamParser.StreamCalls` | src/core/llm/stream_parser.rs:41-137 | The tool calls of a whole stream, whatever the chunks: flush by flush, one call per named index in index order, each with the last name and id and the in-order concatenation of the argument pieces since the flush before. |
| `OpenAiWire.ChunkReadsBack` | src/core/llm/stream_parser.rs:57-128 | Encode and decode: whatever reasoning, content, fragments (index, id, name, arguments) and finish reason a chunk is written with, beside any other fields and choices, a line reads back exactly these. |
| `OpenAiWire.PieceExactly` | src/core/llm/stream_parser.rs:92-117 | For any JSON at all: the index is its 64-bit number or 0, and id, name and arguments are its strings or else missing, missing and empty. |
| `OpenAiWire.PaddingNeverMatters` | src/core/llm/stream_parser.rs:52-56 | White space around a line never changes how it is read. |
| `Text.AsciiWhitespace` | src/core/llm/stream_parser.rs:53 | Trimming takes the space and the controls from tab to carriage return for white space, and no other ASCII character. |
| `OpenAiWire.SentIsRead` | src/core/llm/stream_parser.rs:41-137 | A whole written stream, closed by `[DONE]` or not, in whatever chunks: the lines handled are those of the chunks sent, and nothing is left over. |
| `OpenAiWire.SentCalls` | src/core/llm/stream_parser.rs:41-137 | Its tool calls: flush by flush one per named index as written, in index order, with the last id and name and all arguments written for that index. |
| `OpenAiWire.SentSays` | src/core/llm/stream_parser.rs:41-137 | Its deltas: the reasoning as written, woven with all that the written content means but the open tail. |
| `OpenAiWire.ParallelCallsArrive` | src/core/llm/stream_parser.rs:92-132 | Concrete stream: two parallel calls, in one chunk or two, arrive as two calls. |
| `StreamParser.ReasoningTravelsApart` | src/core/llm/stream_parser.rs:77-83 | Reasoning is sent as it comes, line by line, and changes neither the other deltas, nor the calls, nor the state. |
| `StreamParser.SaysEverythingExactlyWhen` | src/core/llm/stream_parser.rs:85-130 | From the start state, any lines send everything their content means, tails included, if and only if the content behind the last finishing choice leaves no tail that could still become a marker; what is missing otherwise is exactly that tail. |
| `StreamParser.FinishedSaysEverything` | src/core/llm/stream_parser.rs:122-130 | Once a finishing choice has come and no content follows it, nothing is missing, whatever came before and whatever else follows, `[DONE]` included. |
| `StreamParser.DoneDropsTail` | src/core/llm/stream_parser.rs:58-61 | Concrete input: content `<` and then `[DONE]` sends nothing, and the `<` stays behind. |
| `StreamParser.ReasonDecidesFlush` | src/core/llm/stream_parser.rs:74-132 | For any line with a finish reason: one of the three known reasons leaves no slots and no pending text and makes the calls of all its slots; any other makes no calls, keeps the slots with all fragments, and keeps the tail held back. |
| `StreamParser.EarlyDone` | src/core/llm/stream_parser.rs:58-60 | Concrete input: a stream with a `[DONE]` block before its last block, so that what is read depends on the chunks. |
| `StreamParser.UnclosedIsDropped` | src/core/llm/stream_parser.rs:48-50 | Concrete input: a body without a blank line is never read. |
| `StreamParser.UnclosedLostExactlyWhen` | src/core/llm/stream_parser.rs:41-137 | Closing an OpenAI body whose complete blocks are all read applies exactly the lines behind its last blank line, and changes what is sent, called or held if and only if they do. |
| `StreamParser.StreamSays` | src/core/llm/stream_parser.rs:41-137 | A whole stream, whatever the chunks, sends the reasoning of its lines woven with everything their content means but the open tail, and all of it if and only if that tail is empty. |
| `StreamParser.OpenAiOutput` | src/core/llm/stream_parser.rs:41-137 | Every event of every OpenAI stream is a non-empty delta, and every call has an id and a name. |
| `StreamParser.OpenAiAccumulator.constructor` | src/core/llm/stream_parser.rs:19-26 | A new accumulator has no slots, no pending text, and is not thinking. |
| `StreamParser.OpenAiAccumulator.FlushTools` | src/core/llm/stream_parser.rs:28-38 | Drains the slots into the specified calls and leaves none. |
| `StreamParser.OpenAiAccumulator.AbsorbFragment` | src/core/llm/stream_parser.rs:92-119 | Pads the slots in place and writes the fragment as the value specification says, drawing a UUID exactly when a named slot has no id. |
| `StreamParser.OpenAiAccumulator.AbsorbFragments` | src/core/llm/stream_parser.rs:91-120 | The loop over `tool_calls` absorbs all fragments in order. |
| `StreamParser.OpenAiAccumulator.FinishTurn` | src/core/llm/stream_parser.rs:122-132 | On finish the pending text goes out under the current mode, then the slots are flushed. |
| `StreamParser.OpenAiAccumulator.ApplyChoice` | src/core/llm/stream_parser.rs:74-132 | A choice emits reasoning, then split content, then absorbs fragments, then finishes; the new state is the specified one. |
| `StreamParser.OpenAiAccumulator.ParseBlock` | src/core/llm/stream_parser.rs:52-133 | The lines of a block are handled up to and including `[DONE]`, and the early return is reported exactly when there is one. |
| `StreamParser.OpenAiAccumulator.ParseOpenAiSse` | src/core/llm/stream_parser.rs:41-137 | The in-place loop over buffer and accumulator computes the framed handler run of the specification, leftover included. |
| `AnthropicParser.ReadLines` | src/core/llm/stream_parser.rs:239-248 | Of a block the last `event:` and the last `data:` line win. |
| `AnthropicParser.ToolUseBlockAssembles` | src/core/llm/stream_parser.rs:288-338 | From any state with a tool-use block open: whatever deltas come before its stop, exactly one call is gathered, with its id, its name and the in-order concatenation of its JSON pieces, and none is sent yet. |
| `AnthropicParser.ToolUseBlockIsCalled` | src/core/llm/stream_parser.rs:257-350 | In a stream: such a block behind any messages is gathered behind the calls before it, and a message end right after sends it with them. |
| `AnthropicParser.MessagesMean` | src/core/llm/stream_parser.rs:257-352 | The accumulator holds, and the parser sends, exactly what the messages mean: the block started last and not stopped with its JSON pieces, the blocks stopped since the last message end, all text and thinking pieces in order, and the calls of each message end. |
| `AnthropicParser.StreamMeans` | src/core/llm/stream_parser.rs:228-356 | A whole stream, whatever the chunks, yields exactly what the messages of its blocks mean, and leaves the leftover text. |
| `AnthropicWire.MessageReadsBack` | src/core/llm/stream_parser.rs:257-351 | Encode and decode: every message, of each event and block kind and with each way to end, is read back as it was written, whatever other fields go with it. |
| `AnthropicWire.MessageExactly` | src/core/llm/stream_parser.rs:257-351 | For any JSON event: which of the seven messages it is, if and only if its kind and type fields say so, and otherwise none. |
| `AnthropicWire.MessageTextsExactly` | src/core/llm/stream_parser.rs:270-326 | The texts, ids and names of a message are the strings in its fields, or empty where there are none. |
| `AnthropicWire.SentMeans` | src/core/llm/stream_parser.rs:228-356 | A whole written stream, in whatever chunks: its text and thinking pieces are sent as written, its calls are those of the blocks written, and nothing is left over. |
| `AnthropicParser.UnclosedLostExactlyWhen` | src/core/llm/stream_parser.rs:228-356 | Closing an Anthropic body would add exactly the message behind its last blank line, and changes what is sent, called or held if and only if that message is not idle. |
| `AnthropicParser.IdleExactlyWhen` | src/core/llm/stream_parser.rs:257-352 | Which messages change nothing, kind by kind: an empty text, a JSON piece with no tool-use block open, a stop with no block open, a message end with nothing gathered, and so on. |
| `AnthropicParser.AnthropicOutput` | src/core/llm/stream_parser.rs:228-356 | Every event of every Anthropic stream is a non-empty delta, and every call has a name. |
| `AnthropicParser.AnthropicAccumulator.constructor` | src/core/llm/stream_parser.rs:207-213 | A new accumulator has no open block and no calls. |
| `AnthropicParser.AnthropicAccumulator.FlushTools` | src/core/llm/stream_parser.rs:215-225 | Drains the gathered calls that have a name, in order. |
| `AnthropicParser.AnthropicAccumulator.ApplyMessage` | src/core/llm/stream_parser.rs:257-352 | Each message changes the open block and the gathered calls in place as the value specification says. |
| `AnthropicParser.AnthropicAccumulator.ParseAnthropicSse` | src/core/llm/stream_parser.rs:228-356 | The in-place loop computes the framed handler run of the specification, leftover included. |
| `Transcript.Results` | src/core/llm/chat_agent.rs:567-603 | The result blocks carry the ids of the tool uses, in the same order, and are empty exactly when there are none. |
| `Transcript.OutputsAreSent` | src/core/llm/chat_engine.rs:65-92 | The i-th answer carries the output of the i-th tool use as it is, or its error marked as one; so does its trace, with the name and input of that very use. |
| `Transcript.NextRequestPaired` | src/core/llm/chat_agent.rs:340-388 | If a request pairs every tool use with its result, so does the next one, whatever the model asked for and the tools returned. |
| `Transcript.JoinSeparates` | src/core/llm/openai_compatible.rs:207-230 | Joining texts puts a blank line between parts and skips only empty parts at the front. |
| `Transcript.AnswerTools` | src/core/llm/chat_engine.rs:65-92 | The block loop joins the text, answers each tool use once in order, and traces it. |
| `ChatEngine.HistoryKept` | src/core/llm/chat_agent.rs:310-325 | Each turn of the history becomes one message of the same speaker with the same text. |
| `ChatEngine.OpeningPaired` | src/core/llm/chat_agent.rs:310-325 | The first request, history included, is paired. |
| `ChatEngine.RunIsPaired` | src/core/llm/chat_engine.rs:49-107 | In every run every request is paired and extends the one before it, whatever the model and the tools do. |
| `ChatEngine.RunAgent` | src/core/llm/chat_engine.rs:30-110 | At most 8 requests, all paired; it ends at the first turn without tool use, at the first model error, or out of turns; text and trace are those of all turns in order. |
| `ChatEngine.RunChatAgent` | src/core/llm/chat_agent.rs:300-394 | The same with at most 16 requests and the text of the last turn alone. |
| `TurnStream.ReadStream` | src/core/llm/chat_agent.rs:449-491 | Reading a body chunk by chunk with both accumulators gives what the parser of its format makes of the chunks received before the end or the first failing read. |
| `TurnStream.Read` | src/core/llm/chat_agent.rs:469-476 | One parse step on the accumulator of the format; the other accumulator stays as it is. |
| `TurnStream.ChunksIrrelevant` | src/core/llm/chat_agent.rs:449-491 | That depends on the joined text alone, always for Anthropic and without an early `[DONE]` for OpenAI. |
| `TurnStream.Accumulate` | src/core/llm/chat_agent.rs:478-488 | The text and the thinking of a turn are the in-order concatenations of its deltas. |
| `TurnStream.TurnOutputs` | src/core/llm/chat_agent.rs:472-491 | A turn of either format streams deltas only and all its calls have names. |
| `FabricationGuard.ClaimsMonotone` | src/core/llm/chat_agent.rs:655-684 | A text that claims a write still does with anything before and after it. |
| `FabricationGuard.TraceOnlyAcquits` | src/core/llm/chat_agent.rs:655-684 | A longer trace never flags a text that a shorter one does not. |
| `FabricationGuard.ClaimsExactlyWhen` | src/core/llm/chat_agent.rs:622-672 | A text claims a write if and only if one of the claims stands somewhere in it, letter by letter the same or a capital for its small letter; 27 of the 28 phrases are needed, one never decides. |
| `FabricationGuard.CapitalsNeverMatter` | src/core/llm/chat_agent.rs:660-665 | Two texts that differ in capitals at most claim the same. |
| `ChatAgent.StreamChatAgent` | src/core/llm/chat_agent.rs:396-620 | Every run: at most 16 requests, all paired and each extending the last; exactly one `MessageStop`, as the last event, with the reason of its ending; every `ToolCall` directly followed by its own `ToolResult` and no result elsewhere; at most one saved turn, with the specified text and trace. |
| `ChatAgent.RunTurns` | src/core/llm/chat_agent.rs:428-619 | The turn loop: each turn came from the model's reply to its request; a turn is corrected only if its text claims a write no tool made and a retry is left, and its text is never accumulated. |
| `ChatAgent.FinalReply` | src/core/llm/chat_agent.rs:534-553 | A final reply that claims an unbacked write (only possible on the 16th turn) is retracted in the stream and saved as exactly the retraction. |
| `ChatAgent.RunTools` | src/core/llm/chat_agent.rs:570-609 | Announce, run, trace, announce the result: one event pair, one trace entry and one result block per call, in order. |
| `ChatAgent.BuildAssistant` | src/core/llm/chat_agent.rs:557-583 | The assistant message is thinking, then text, then the tool uses in order. |
| `ChatAgent.StreamRunPaired` | src/core/llm/chat_agent.rs:505-609 | Every request of every streamed run is paired and extends the one before, corrective turns included. |
| `ChatAgent.EndedCloses` | src/core/llm/chat_agent.rs:428-619 | Every ended run has streamed a closed event sequence. |
| `ChatAgent.GuardReach` | src/core/llm/chat_agent.rs:494-619 | For every run that saves a reply: a reply that claims a write, with no matching `commit_policy` call, is retracted if and only if the run ended with a reply, no other write tool was called, and the text of the last turn alone makes the claim; what is not retracted is saved as it stands. |
| `ChatAgent.EarlierClaimIsSaved` | src/core/llm/chat_agent.rs:94-95 | Concrete input: a claim beside an earlier read-only tool call is saved, although the tool description promises that any such reply is retracted. |
| `ChatAgent.PauseAcquitsCommitClaim` | src/core/llm/chat_agent.rs:94-95 | Concrete input: with a `pause_policy` call in the trace a claimed commit is saved. |
| `ChatAgent.OutOfTurnsIsUnchecked` | src/core/llm/chat_agent.rs:611-619 | Every run of a model that claims a commit and calls a read-only tool in every turn runs out of turns and saves its claims, with no write called and nothing retracted. |
| `ChatAgent.ClaimingReplyExists` | src/core/llm/chat_agent.rs:449-491 | There is such a model: a one-event reply whose parse is worked out in full. |
| `ChatAgent.GuardCoversSilentTurns` | src/core/llm/chat_agent.rs:494-553 | When tool turns carry no text, what is saved is the unflagged last text itself. |
| `OpenAiCompatible.AnthropicToOpenAiMessages` | src/core/llm/openai_compatible.rs:194-288 | The loop over messages computes the specified conversion, system prompt first. |
| `OpenAiCompatible.ConvertOne` | src/core/llm/openai_compatible.rs:206-284 | One message becomes its tool messages and then its text, or one message of its own. |
| `OpenAiCompatible.GatherParts` | src/core/llm/openai_compatible.rs:207-245 | The block loop gathers joined text, joined reasoning, calls and results, each in order. |
| `OpenAiCompatible.ConvertConcat` | src/core/llm/openai_compatible.rs:194-288 | Conversion distributes over concatenation. |
| `OpenAiCompatible.ConvertExtends` | src/core/llm/openai_compatible.rs:194-288 | A request that extends another converts to an extension of that conversion. |
| `OpenAiCompatible.PairedConverts` | src/core/llm/openai_compatible.rs:206-284 | On the wire every message with `tool_calls` is directly followed by exactly its `tool` messages, and no `tool` message is orphaned, for every paired transcript. |
| `OpenAiCompatible.RequestAnswered` | src/core/llm/openai_compatible.rs:194-288 | The same with the system prompt in front. |
| `OpenAiCompatible.PairedRunOnWire` | src/core/llm/openai_compatible.rs:194-288 | End to end: every request of a paired run is well formed on the wire, and each extends the previous one as a prefix. |
| `OpenAiCompatible.ConversionPreserves` | src/core/llm/openai_compatible.rs:191-287 | The system prompt, if there is one, is said first by the system; behind it conversion keeps, in order, every tool call, every (id, content) result, every message's joined text with its speaker, and the assistant's reasoning. |
| `OpenAiCompatible.RoundTrip` | src/core/llm/openai_compatible.rs:194-288 | Every paired transcript can be read back from the wire, message by message, up to joining the texts of a message and letting text beside results stand alone. |
| `OpenAiCompatible.OpenAiChoiceToCompletion` | src/core/llm/openai_compatible.rs:343-370 | An answer becomes its non-empty text and then its tool uses in order; the three known finish reasons are renamed and any other is kept. |
| `OpenAiCompatible.AnswerEchoes` | src/core/llm/openai_compatible.rs:343-370 | An answer sent back in the next request says the same text and makes the same calls. |
| `PolicySchema.ValidationExact` | src/automation/policy/schema.rs:157-274 | The checks accept a policy if and only if it satisfies every rule, stated without wrap-around: the 32-bit cap product cannot mislead them. |
| `PolicySchema.Validate` | src/automation/policy/schema.rs:158-167 | Reports the first failing check in the code's order, and succeeds exactly on valid policies. |
| `PolicySchema.ValidateVenues` | src/automation/policy/schema.rs:197-214 | The loop with the seen-set reports the first faulty venue, repeats before chain faults. |
| `PolicySchema.VenuesAccepted` | src/automation/policy/schema.rs:197-214 | That loop accepts exactly the whitelists without repeats on whitelisted chains. |
| `PolicySchema.DistinctVenues` | src/automation/policy/schema.rs:43-60 | A whitelist without repeats has at most four entries. |
| `PolicySchema.CapsPlaceAlmostAll` | src/automation/policy/schema.rs:169-188 | With the floored caps of a valid policy's n venues, all of any total can be placed except fewer than n base units. |
| `PolicyStore.ApplyAllKeepsValid` | src/automation/policy/store.rs:35-54 | Across any sequence of puts and status changes every stored policy is valid and stored under its user. |
| `PolicyStore.VersionCountsPuts` | src/automation/policy/store.rs:35-54 | A user's version is the number of that user's accepted puts, modulo 2^32; status changes, rejected puts and other users' calls never touch it. |
| `PolicyStore.OnlyStatusWithoutPuts` | src/automation/policy/store.rs:45-54 | Without an accepted put, only the status of a policy can change. |
| `PolicyStore.SameVersionExactlyWhen` | src/automation/policy/store.rs:35-54 | Two reads of a user see the same version if and only if the accepted puts between them are a multiple of 2^32; with fewer than 2^32 the same version means the same policy but for the status. |
| `PolicyStore.WrappedVersionHidesChange` | src/automation/policy/store.rs:35-43 | Concrete run: 2^32 puts of any other valid policy end at the version before. |
| `PolicyStore.InMemoryPolicyStore.constructor` | src/automation/policy/store.rs:23-27 | A new store holds no policy. |
| `PolicyStore.InMemoryPolicyStore.Get` | src/automation/policy/store.rs:31-33 | Returns the stored policy, if any. |
| `PolicyStore.InMemoryPolicyStore.Put` | src/automation/policy/store.rs:35-43 | Rejects an invalid policy with its first fault and no change; otherwise stores it under the next version; keeps the store valid. |
| `PolicyStore.InMemoryPolicyStore.SetStatus` | src/automation/policy/store.rs:45-54 | Changes the status alone, or fails for an unknown user; keeps the store valid. |
| `PolicyStore.InMemoryPolicyStore.ListActiveUsers` | src/automation/policy/store.rs:56-65 | Exactly the users with an active policy, each once, for every map order. |
| `PolicyStore.InMemoryPolicyStore.Interfere` | src/automation/policy/store.rs:35-54 | Any calls of other tasks have the specified combined effect and keep the store valid. |
| `Evaluator.SumIsTotal` | src/automation/evaluator/mod.rs:167-173 | The holdings sum does not depend on map order and is exact when the capital fits 256 bits. |
| `Evaluator.PercentagesExact` | src/automation/evaluator/mod.rs:426-428 | Caps and move limits never exceed the floored percentage of the capital, and are exactly that whenever capital and product fit 256 bits. |
| `Evaluator.RankingIsStable` | src/automation/evaluator/mod.rs:363-383 | The ranking is the whole whitelist, best rate first, equal rates in whitelist order. |
| `Evaluator.RankHead` | src/automation/evaluator/mod.rs:259-261 | Its head is the first whitelist entry among those of maximal rate. |
| `Evaluator.WorstHolding` | src/automation/evaluator/mod.rs:385-411 | An eligible non-empty holding of minimal rate, for every map order, and none only if none is eligible. |
| `Evaluator.ValidIsIndexable` | src/automation/evaluator/mod.rs:413-424 | Evaluation of a valid policy never indexes out of bounds. |
| `Evaluator.DrainTargetAllowed` | src/automation/evaluator/mod.rs:193-240 | Every drain target is an idle venue on a chain the policy allows. |
| `Evaluator.PlanBounds` | src/automation/evaluator/mod.rs:242-361 | Every Act plans one move: between two different venues, positive, at most the source holding, the move cap and the room under the destination cap, and as large as one of the three; into the first best venue, out of a worst eligible holding; gaining at least the trigger; at a cost within the gas cap. No assumption on sums: wrap-around only lowers the limits. |
| `Evaluator.ActWithinGasCap` | src/automation/evaluator/mod.rs:336-340 | Every Act has one action and a cost the deciding policy's gas cap covers, even if sums wrap. |
| `Decisions.StopsExactlyWhen` | src/automation/evaluator/mod.rs:27-52 | On the fields of the inputs: stale if and only if older than five minutes; depegged if and only if fresh and below the peg; gateway down and quota reached if and only if nothing before them stops it; and every drain target is the first idle venue listed, or else the idle venue of the first chain. |
| `Decisions.VenueStopsExactlyWhen` | src/automation/evaluator/mod.rs:212-242 | Escalation or a circuit break about a venue: if and only if snapshot and peg pass and it is the first venue in map order with money in it that is not idle and has no data, is used above the limit, or loses deposits above the limit; of these the first named decides. |
| `Decisions.NoCapitalExactlyWhen` | src/automation/evaluator/mod.rs:244-278 | No capital if and only if nothing stops the evaluation and the wrapped total is zero or no holding is idle or listed; otherwise there is a worst holding, and always a best venue. |
| `Decisions.ActsExactlyWhen` | src/automation/evaluator/mod.rs:279-361 | With a worst holding and a best venue the decision is fixed by the fields alone: same venue, gain in basis points below the trigger, cooldown, no room, gas above the cap, profit below the minimum, in this order, and otherwise that one move with its amount, profit and cost. |
| `Decisions.ThoughtsExactlyWhen` | src/automation/evaluator/mod.rs:23-67 | The thoughts of an evaluation: the markets are scanned if and only if nothing stops it and there is capital; entry, position and result are always there. |
| `Decisions.WorstIsFound` | src/automation/evaluator/mod.rs:390-416 | The fold finds the first holding in map order among the movable ones that pay the least, and nothing exactly when none is movable. |
| `Decisions.RatesPaid` | src/automation/evaluator/mod.rs:363-388 | A venue pays the smoothed rate the snapshot lists for it if it is AAVE and listed, and otherwise nothing. |
| `Decisions.MoveCosts` | src/automation/evaluator/mod.rs:326-341 | A cost is that of a move if and only if it is the gas of both chains, nothing where the snapshot has no price, with the gateway fee added between chains only. |
| `Decisions.FetchedMeetsNoLimit` | src/automation/workers/position.rs:83-87 | For a position as the fetcher reports it, no valid policy ever meets its daily quota or its cooldown. |
| `Decisions.IdleIsMoved` | src/automation/evaluator/mod.rs:17-361 | Concrete inputs: for any amount of idle money and any share, a policy that lists one venue makes the evaluator plan to move that share into it. |
| `Evaluator.Evaluate` | src/automation/evaluator/mod.rs:17-67 | The method with its growing list of thoughts returns the decision and thoughts that the theorems of `Decisions` characterise. |
| `Convergence.CarryConserves` | src/automation/evaluator/mod.rs:307-313 | Carrying out a move conserves the capital. |
| `Convergence.CarryYields` | src/automation/evaluator/mod.rs:263-275 | It raises the sum of amount times rate by the amount moved times the rate gained. |
| `Convergence.ProfitIsYieldGained` | src/automation/evaluator/mod.rs:322-324 | The profit a plan expects is what its move adds to the yearly yield, for the days the policy means to hold, at the token's price; an amount beyond 128 bits counts as the largest within. |
| `Convergence.RoundProgresses` | src/automation/evaluator/mod.rs:242-361 | A planned move conserves capital, strictly raises the yield, and leaves the destination within its cap. |
| `Convergence.RoundLowersPotential` | src/automation/evaluator/mod.rs:307-313 | Every planned move empties a source, is a full-size move, or fills the destination: a potential strictly falls. |
| `Convergence.Converges` | src/automation/evaluator/mod.rs:242-361 | Every run of planned moves, under every map order in every round, makes at most floor(cap / max move) + non-empty holdings + 1 moves and progresses in each. |
| `Convergence.ComesToRest` | src/automation/workers/position.rs:82-86 | From every position with the fetcher's empty cooldowns and quota, some run within that bound ends where no map order makes the evaluator act. |
| `RiskGate.GateSafety` | src/automation/risk_gate.rs:13-33 | For any puts and status changes between decision and gate: the plan passes if and only if the re-read policy is active and its gas cap covers the cost; a rejection implies that it is paused or was replaced, hence of higher version unless the counter wrapped. |
| `Tick.InMemoryPositionStore.Get` | src/automation/position.rs:34-36 | Returns the stored position, if any. |
| `Tick.InMemoryPositionStore.Put` | src/automation/position.rs:38-41 | Stores a position for one user and leaves the others. |
| `Tick.InMemoryPositionStore.Interfere` | src/automation/position.rs:38-41 | Any puts of other tasks have their combined effect, in order. |
| `Tick.TickOnce` | src/automation/tick.rs:13-96 | Appends the trigger first; skips for a missing or paused policy or snapshot, in that order; else appends one event per thought a millisecond apart and the decision last, all stamped with the version read; returns the ids and the decision. |
| `Tick.TrailExactly` | src/automation/tick.rs:22-87 | The trail of a tick, event by event: ids, user, times a millisecond apart, versions and payloads of the trigger, the thoughts and the decision. |
| `Tick.AppendThoughts` | src/automation/tick.rs:60-73 | The loop over thoughts appends exactly their events, in order. |
| `Scheduler.GateAndExecute` | src/automation/scheduler.rs:64-88 | The plan is executed or rejected exactly as the gate says of the re-read policy, and the log grows by exactly that run or that rejection. |
| `Scheduler.TakeTurn` | src/automation/scheduler.rs:36-88 | With any position puts and policy calls of other tasks before the tick's read, and policy calls between the two reads: the turn is safe (executed exactly under a covering re-read policy, rejected only under a paused or newer one), and all three stores are left as specified. |
| `Scheduler.TickUserNow` | src/automation/scheduler.rs:93-160 | The same for the tick on demand, which always has an executor. |
| `Scheduler.RunCronCycle` | src/automation/scheduler.rs:18-91 | Takes one safe turn for each user active at the start, each once, starting from the stores the turns before left; the count is their number. |
| `Scheduler.LoggedExecutionWasCovered` | src/automation/scheduler.rs:64-88 | Read off the log: an executor event means that a plan passed an active, covering policy, and it names that re-read policy's version. |
| `Scheduler.RejectionIsLogged` | src/automation/scheduler.rs:69-87 | A rejection appends one event, under the re-read policy's version, whose reason says that the policy is paused if and only if it is. |
| `ConcurrentTurns.EachTurnIsGated` | src/automation/scheduler.rs:107-159 | With another turn and other tasks interleaved anywhere: each turn that acts executes if and only if the policy its gate reads covers its plan, and is otherwise rejected by a paused or replaced policy. |
| `ConcurrentTurns.SamePutExactlyWhen` | src/automation/tick.rs:57-58 | Two decisions read one and the same put of a position if and only if no position is put between them. |
| `ConcurrentTurns.FetchedTurnsShareExactlyWhen` | src/automation/scheduler.rs:96-117 | Two turns that both fetched, with no other put, act on one position if and only if each had put its own before the other decided. |
| `ConcurrentTurns.SpendTwiceExactlyWhen` | src/automation/scheduler.rs:96-159 | Both turns execute plans made from one put if and only if both decide to act, no position is put between their decisions, and each gate reads a policy that covers its plan; nothing else stops them. |
| `ConcurrentTurns.AllIdleIsSpentTwice` | src/automation/scheduler.rs:96-159 | Concrete schedule: a tick on demand beside the cron cycle plans to move the whole holding twice, and both plans are executed. |
| `AuditStore.InMemoryAuditStore.constructor` | src/automation/audit/store.rs:28-35 | A new log is empty and gives out id 1 first. |
| `AuditStore.InMemoryAuditStore.Append` | src/automation/audit/store.rs:45-60 | Draws the next id and pushes the event under it. |
| `AuditStore.InMemoryAuditStore.Get` | src/automation/audit/store.rs:62-70 | Finds an event with the id, or none has it. |
| `AuditStore.InMemoryAuditStore.ListForUser` | src/automation/audit/store.rs:72-88 | Filter, sort and truncate give the specified listing. |
| `AuditStore.ListingShowsNewest` | src/automation/audit/store.rs:72-88 | A listing shows the `limit` highest-id matching events, each once, in strictly descending order; everything left out is older than everything shown. |
| `AuditStore.ListingIgnoresPushOrder` | src/automation/audit/store.rs:72-88 | Two logs with the same events in different push orders list the same. |
| `AuditProtocol.TakeKeepsConsistent` | src/automation/audit/store.rs:45-60 | Either half of an append keeps: no id twice, stored or in flight; every id drawn is stored or in flight; none undrawn. |
| `AuditProtocol.EveryRunConsistent` | src/automation/audit/store.rs:45-60 | So under every interleaving of any writers' two-step appends. |
| `AuditProtocol.QuietLog` | src/automation/audit/store.rs:45-60 | When no append is under way the stored ids are exactly 1..n, each once. |
| `Executor.PlannedMoveHasRouteExactlyWhen` | src/automation/executor.rs:163-207 | With non-negative rates, a planned move has a route in the executor if and only if it takes idle money on Arc, or idle money on Arbitrum into AAVE there. |
| `Executor.WithoutArcAaveMovesHaveRoutes` | src/automation/executor.rs:163-207 | So every planned move of a policy that does not list AAVE on Arc has a route. |
| `Executor.ArbitrumToArcIsStranded` | src/automation/executor.rs:201-205 | Concrete input: a valid policy that lists AAVE on Arc, with idle money on Arbitrum, makes the evaluator plan a move the executor does not support. |
| `Executor.AllPerformed` | src/automation/executor.rs:163-289 | If all calls of an action succeed they are all made, in order, and each is reported under its own name with its own hash. |
| `Executor.FirstFailureEnds` | src/automation/executor.rs:163-289 | The first call that fails is the last one made, and its error is the outcome. |
| `Executor.Dispatch` | src/automation/executor.rs:163-207 | The case split makes exactly the planned calls of its route, up to the first that fails. |
| `Executor.CrossChainArcIdleToArbitrumAave` | src/automation/executor.rs:209-289 | Deposit, burn, mint, supply, one after another, each only if the one before succeeded; the calls made and the steps reported are the planned ones. |
| `Executor.AmountsAskedExactly` | src/automation/executor.rs:168-221 | For every planned move: a supply asks for everything whatever was planned; a withdrawal for the planned amount; a bridge burns the planned amount on the planned chains, and asks to deposit more than the venue holds if and only if less than the fee buffer stays behind and the sum does not wrap. |
| `Executor.MovesThatAskForMore` | src/automation/executor.rs:168-221 | Concrete inputs: for a move of half the call asks for everything, and for a move of all it asks to deposit more than there is. |
| `Executor.ActionTrailExactly` | src/automation/executor.rs:76-156 | The trail of an action, event by event: ids, times, user, policy version, chain, hash and payload of its start, its substeps and its end. |
| `Executor.AppendSubsteps` | src/automation/executor.rs:93-111 | The step loop appends one substep event per step, in order, naming the start event. |
| `Executor.RunAction` | src/automation/executor.rs:76-156 | Start, dispatch, then substeps and done, or one failure: exactly the specified trail, and the calls made. |
| `Executor.ExecutePlan` | src/automation/executor.rs:69-161 | The trail and the outcome of the actions in order; nothing follows a failed one. |
| `ExecutorRuns.StepKeepsInv` | src/automation/executor.rs:75-160 | Every step of any run or other writer keeps the invariant that grouping the log by start id recovers each attempted action and the open one so far. |
| `ExecutorRuns.EveryScheduleBracketed` | src/automation/executor.rs:75-160 | In every state of every schedule of concurrent executions: each attempted action is one start, its substeps in order and one end; nothing follows a failed action; runs share no start id. |
| `ExecutorRuns.ReturnedHashesAreLogged` | src/automation/executor.rs:129-159 | The hashes a run returns are the hashes of its logged substeps, in order. |
| `ExecutorRuns.EveryScheduleReturnsLoggedHashes` | src/automation/executor.rs:75-160 | In every schedule the hashes a finished run returned are the substep hashes the log groups under its attempts, in order. |
| `ExecutorRuns.EveryScheduleAllHome` | src/automation/executor.rs:75-160 | The grouping misses nothing: in every state of every schedule each executor event belongs to one attempt or open action of one run, and to no other. |
| `SoloExecution.SoloIsPlanExecution` | src/automation/executor.rs:69-161 | Scheduled alone on any log with no append under way, the step machine refines to the loop: the log is always a prefix of the log it began with and the plan trail, and when it finishes it is exactly that, with the same outcome. |
| `GatewayRetry.TransferWithDelegateRetry` | src/automation/executor.rs:291-331 | For every pattern of replies, latencies and overruns: which call is the last, what is returned, every back-off, and the loop's clock as the sum of its calls, sleeps and overruns; at most 8 calls, all with the same intent, one authorisation if and only if the first reply asks for it; and it gives up at a call if and only if all calls up to it were short of balance and the time ran out there first. |
| `GatewayRetry.LoopEndsEarly` | src/automation/executor.rs:306-330 | Every loop ends by its seventh call, and its sleeps fit the budget. |
| `GatewayRetry.PromptRunGivesUpAtSeven` | src/automation/executor.rs:306-330 | With prompt replies and a balance that never shows, it gives up at the seventh call, after 59 seconds. |
| `GatewayRetry.ErrorsRecognised` | src/automation/executor.rs:333-339 | An error text counts as a missing balance, or a missing delegate, if and only if it contains that phrase. |
| `GatewayRetry.SleepsWithinBudget` | src/automation/executor.rs:26-28 | Six back-offs take 59 seconds; any number of them fits the budget if and only if it is at most six. |
| `FundingStore.DecimalRoundTrip` | src/automation/funding/store.rs:62-72 | Every amount survives being stored as decimal text. |
| `FundingStore.RunsKeepLedgerValid` | src/automation/funding/store.rs:45-66 | After any appends ids are 1..n in storage order, no key is stored twice, and nothing stored ever changed. |
| `FundingStore.SumIsOfFirstAmounts` | src/automation/funding/store.rs:68-75 | A sum is that of the first-recorded amounts over distinct (user, chain, kind, hash) keys, modulo 2^256, and exact when it fits. |
| `FundingStore.RepeatLeavesNoTrace` | src/automation/funding/store.rs:45-54 | Appending is idempotent: an event whose key came before leaves no trace anywhere in a run. |
| `FundingStore.SwapShowsExactlyWhen` | src/automation/funding/store.rs:45-75 | The order of two neighbouring events shows in some sum if and only if they share a key not yet recorded and differ in amount. |
| `FundingStore.OrderIrrelevant` | src/automation/funding/store.rs:45-75 | Any permutation of events that report one amount per key changes no sum. |
| `FundingStore.NetIsClampedDifference` | src/automation/funding/store.rs:17-21 | While both true sums fit, the net is deposits less withdrawals, clamped to zero. |
| `FundingStore.InMemoryFundingStore.constructor` | src/automation/funding/store.rs:28-35 | A new ledger is empty and gives out id 1 first. |
| `FundingStore.InMemoryFundingStore.Append` | src/automation/funding/store.rs:45-66 | Returns the id the key has in the ledger, old or new; records it exactly when it is new. |
| `FundingStore.InMemoryFundingStore.Sum` | src/automation/funding/store.rs:68-75 | The loop computes the wrapped sum of the stored amounts of that user and kind. |
| `FundingStore.InMemoryFundingStore.NetDeposited` | src/automation/funding/store.rs:17-21 | The saturating difference of the two stored sums. |

## Left out

- All RPC, contract, signing and HTTP code: foreign behaviour; an action, a transfer and an
  authorisation are a success or an error of any kind, and a failure while a bridge is being prepared
  counts as a failure of its next call.
- What a call does on the chain: the amounts it is asked for are modelled, their effect on balances is the
  contracts', which are not part of this model.
- The Postgres stores: their behaviour is the database's. Version history is claimed of the in-memory
  store only.
- Not-a-number values and rounding of floating point.
- The event stream format beyond what the code reads of it (sections 9.2.5 and 9.2.6 of the WHATWG HTML
  standard): only LF blank lines separate blocks, and fields other than `event:` and `data:` are ignored.
- JSON text syntax: parsing and rendering are parameters.
- OpenAiCompatible.RoundTrip: assumes that rendered JSON parses back to itself, which is the JSON library's
  promise.
- Lossy UTF-8 decoding of chunks, which comes before the parsers and can alter a character that
  straddles two chunks; chunk invariance is about the decoded text.
- UUID randomness: the n-th UUID drawn is the n-th value of a parameter.
- A client that disconnects in the middle of a stream; the events and the saved turn are those of a run
  that is driven to its end.
- Executor.ExecutePlan: has no other writer between its own appends to the audit log; interleaved writers are
  in `AuditProtocol` and `ExecutorRuns`.
- Tick.TickOnce: the same.
- Scheduler.TakeTurn: the same; other tasks change policies and put positions between its steps, but do not
  append to the log. Two turns at once are in `ConcurrentTurns`.
- Memory failures, and overflow of the 64-bit id counters.
- Wording: of the corrective message and of the retraction only the first words are kept, which no theorem
  needs more of than that they differ from the retry notice. Wording of thoughts, thought costs, gate reasons with their figures, prompts, tool schemas and
  logging.
- The cost field of audit events, which no modelled code sets.
- Policy fields that no modelled code reads: risk label, creation time, prompt source, notifications and
  the blacklist switch.
- Numbers with a radix prefix in stored amounts: the ledger only ever writes plain decimals.
- `list_for_user` of the funding ledger: the same filter, sort and cut as the audit log's.
- Config validation, byte packing, the provider fallback chain, snapshot storage and the session cache:
  they would only add easy members.

/**
 * The streaming chat agent: a bounded loop of model turns that streams events to the browser,
 * runs tools, corrects one kind of false claim, and saves one assistant turn.
 */
module ChatAgent {
  import opened Text
  import opened Json
  import opened StreamEvents
  import opened Transcript
  import opened Sequences
  import opened FabricationGuard
  import opened TurnStream
  import ChatEngine
  import ThinkSplitter
  import ToolAssembly

  const MAX_TURNS := 16

  function RetryNotice(): string {
    "(let me actually run that\U{2026})"
  }

  /** The corrective message; only its first words are kept here. */
  function SystemCheck(): string {
    "SYSTEM CHECK: Your last reply asserted a write action"
  }

  // ----- the event protocol -----

  predicate SameCall(call: StreamEvent, result: StreamEvent) {
    call.ToolCall? && result.ToolResult? && call.id == result.id && call.name == result.name
  }

  predicate CallAnsweredAt(events: seq<StreamEvent>, i: nat)
    requires i < |events|
  {
    && (events[i].ToolCall? ==> i + 1 < |events| && SameCall(events[i], events[i + 1]))
    && (events[i].ToolResult? ==> i > 0 && SameCall(events[i - 1], events[i]))
  }

  /** A stream in progress: no stop yet, and each tool call directly followed by its own result. */
  ghost predicate Open(events: seq<StreamEvent>) {
    forall i :: 0 <= i < |events| ==> !events[i].MessageStop? && CallAnsweredAt(events, i)
  }

  /** A finished stream: exactly one stop, as its last event. */
  ghost predicate Closed(events: seq<StreamEvent>, stopReason: string) {
    && events != []
    && events[|events| - 1] == MessageStop(stopReason)
    && Open(events[..|events| - 1])
  }

  lemma OpenConcat(a: seq<StreamEvent>, b: seq<StreamEvent>)
    requires Open(a) && Open(b)
    ensures Open(a + b)
  {
    var all := a + b;
    forall i | 0 <= i < |all|
      ensures !all[i].MessageStop? && CallAnsweredAt(all, i)
    {
      if i < |a| {
        assert CallAnsweredAt(a, i) && all[i] == a[i];
      } else {
        assert CallAnsweredAt(b, i - |a|) && all[i] == b[i - |a|];
      }
    }
  }

  lemma Closes(events: seq<StreamEvent>, stopReason: string)
    requires Open(events)
    ensures Closed(events + [MessageStop(stopReason)], stopReason)
  {
    assert (events + [MessageStop(stopReason)])[..|events|] == events;
  }

  // ----- the turns of a run -----

  /** A turn that did not end the run: it used tools, or its claim was taken back and retried. */
  datatype Turn =
    | ToolTurn(text: string, thinking: string, calls: seq<ParsedToolCall>)
    | Corrected(text: string)

  datatype Ending =
    | Failed(message: string)
    | Replied(text: string)
    | OutOfTurns

  datatype Saved = Saved(text: string, trace: seq<ToolTrace>)

  function CallBlocks(calls: seq<ParsedToolCall>): seq<ContentBlock> {
    if calls == [] then [] else [ToolUse(calls[0].id, calls[0].name, calls[0].arguments)] + CallBlocks(calls[1..])
  }

  function TurnContent(t: Turn): seq<ContentBlock>
    requires t.ToolTurn?
  {
    AssistantBlocks(t.thinking, t.text, CallBlocks(t.calls))
  }

  /** The request of the next turn. */
  function NextStreamRequest(ms: seq<ChatMessage>, t: Turn, tools: Tools, turn: nat): seq<ChatMessage> {
    match t
    case ToolTurn(_, _, _) => NextRequest(ms, TurnContent(t), tools, turn)
    case Corrected(text) =>
      ms + [ChatMessage(Assistant, [TextBlock(text)]), ChatMessage(User, [TextBlock(SystemCheck())])]
  }

  /** The requests of a run, from its first one, given the turns between them. */
  ghost predicate StreamRun(requests: seq<seq<ChatMessage>>, opening: seq<ChatMessage>, turns: seq<Turn>,
        tools: Tools)
  {
    && requests != []
    && requests[0] == opening
    && |turns| >= |requests| - 1
    && forall k :: 0 <= k < |requests| - 1 ==> requests[k + 1] == NextStreamRequest(requests[k], turns[k], tools, k)
  }

  /** The reply text kept so far: what tool turns said; corrected turns never count. */
  function Accumulated(turns: seq<Turn>): string {
    if turns == [] then ""
    else
      var t := turns[|turns| - 1];
      Accumulated(turns[..|turns| - 1]) + if t.ToolTurn? then t.text else ""
  }

  function TurnTrace(t: Turn, tools: Tools, turn: nat): seq<ToolTrace> {
    if t.ToolTurn? then Traces(CallBlocks(t.calls), tools, turn, 0) else []
  }

  function RunTrace(turns: seq<Turn>, tools: Tools): seq<ToolTrace> {
    if turns == [] then []
    else
      var k := |turns| - 1;
      RunTrace(turns[..k], tools) + TurnTrace(turns[k], tools, k)
  }

  function ToolEvents(calls: seq<ParsedToolCall>, tools: Tools, turn: nat, k: nat): seq<StreamEvent>
    decreases |calls|
  {
    if calls == [] then []
    else
      [ToolCall(calls[0].id, calls[0].name, calls[0].arguments),
       ToolResult(calls[0].id, calls[0].name, Reply(tools(turn, k)))]
      + ToolEvents(calls[1..], tools, turn, k + 1)
  }

  lemma {:induction false} ToolEventsOpen(calls: seq<ParsedToolCall>, tools: Tools, turn: nat, k: nat)
    ensures Open(ToolEvents(calls, tools, turn, k))
    decreases |calls|
  {
    if calls != [] {
      ToolEventsOpen(calls[1..], tools, turn, k + 1);
      OpenConcat(ToolEvents(calls, tools, turn, k)[..2], ToolEvents(calls[1..], tools, turn, k + 1));
    }
  }

  /** What a model's reply streams, and what it says, when its body ends without a failing read. */
  function Output(codec: Codec, reply: StreamReply): TurnOutput {
    match reply
    case Opened(format, chunks) => Parsed(codec, format, Received(chunks))
    case Refused(_) => TurnOutput([], [])
  }

  predicate Arrives(reply: StreamReply) {
    reply.Opened? && Failure(reply.chunks) == None
  }

  /** Turn `t` is what the model's reply was turned into. */
  predicate CameFrom(codec: Codec, reply: StreamReply, t: Turn) {
    && Arrives(reply)
    && var out := Output(codec, reply);
       match t
       case ToolTurn(text, thinking, calls) =>
         out.calls != [] && calls == out.calls && text == Said(false, out.events) && thinking == Said(true, out.events)
       case Corrected(text) => out.calls == [] && text == Said(false, out.events)
  }

  function TurnEvents(codec: Codec, reply: StreamReply, t: Turn, tools: Tools, turn: nat): seq<StreamEvent> {
    Output(codec, reply).events
    + match t
      case ToolTurn(_, _, calls) => ToolEvents(calls, tools, turn, 0)
      case Corrected(_) => [TextReplace(RetryNotice())]
  }

  lemma DeltasOpen(events: seq<StreamEvent>)
    requires AllDeltas(events)
    ensures Open(events)
  {
    forall i | 0 <= i < |events|
      ensures !events[i].MessageStop? && CallAnsweredAt(events, i)
    {
      assert events[i].IsDelta();
    }
  }

  lemma OutputOpen(codec: Codec, reply: StreamReply)
    ensures Open(Output(codec, reply).events)
  {
    hide Output, Open;
    OutputDeltas(codec, reply);
    DeltasOpen(Output(codec, reply).events);
  }

  lemma TurnEventsOpen(codec: Codec, reply: StreamReply, t: Turn, tools: Tools, turn: nat)
    ensures Open(TurnEvents(codec, reply, t, tools, turn))
  {
    hide Output, ToolEvents, Open;
    OutputOpen(codec, reply);
    match t {
      case ToolTurn(_, _, calls) =>
        ToolEventsOpen(calls, tools, turn, 0);
        OpenConcat(Output(codec, reply).events, ToolEvents(calls, tools, turn, 0));
      case Corrected(_) =>
        SingleOpen(TextReplace(RetryNotice()));
        OpenConcat(Output(codec, reply).events, [TextReplace(RetryNotice())]);
    }
  }

  lemma SingleOpen(e: StreamEvent)
    requires e.TextReplace? || e.Error?
    ensures Open([e])
  {
  }

  /** A turn keeps every request paired. */
  lemma NextStreamPaired(ms: seq<ChatMessage>, t: Turn, tools: Tools, turn: nat)
    requires Paired(ms)
    ensures Paired(NextStreamRequest(ms, t, tools, turn))
    ensures ms <= NextStreamRequest(ms, t, tools, turn)
  {
    match t
    case ToolTurn(_, _, _) => NextRequestPaired(ms, TurnContent(t), tools, turn);
    case Corrected(text) =>
      ChatEngine.PlainIds(text);
      ChatEngine.PlainIds(SystemCheck());
      var a, u := ChatMessage(Assistant, [TextBlock(text)]), ChatMessage(User, [TextBlock(SystemCheck())]);
      PairedPlain(ms, a);
      PairedPlain(ms + [a], u);
      assert ms + [a] + [u] == ms + [a, u];
  }

  lemma ResultsSkip(thinking: string, text: string, uses: seq<ContentBlock>, tools: Tools, turn: nat)
    ensures Results(AssistantBlocks(thinking, text, uses), tools, turn, 0) == Results(uses, tools, turn, 0)
  {
    hide Results;
    var said := if text == "" then uses else [TextBlock(text)] + uses;
    ResultsFirst(TextBlock(text), uses, tools, turn);
    ResultsFirst(Thinking(thinking, None), said, tools, turn);
    assert AssistantBlocks(thinking, text, uses) == if thinking == "" then said else [Thinking(thinking, None)] + said;
  }

  lemma ResultsFirst(b: ContentBlock, rest: seq<ContentBlock>, tools: Tools, turn: nat)
    requires !b.ToolUse?
    ensures Results([b] + rest, tools, turn, 0) == Results(rest, tools, turn, 0)
  {
    assert ([b] + rest)[1..] == rest;
  }

  // ----- a whole run -----

  type Model = nat -> StreamReply

  datatype RunLog = RunLog(
    requests: seq<seq<ChatMessage>>,
    events: seq<StreamEvent>,
    turns: seq<Turn>,
    ending: Ending,
    saved: Option<Saved>)

  /** Turn k came from reply k; it was corrected only if it claimed a write none of its tools made. */
  ghost predicate TurnOk(codec: Codec, model: Model, tools: Tools, turns: seq<Turn>, k: nat)
    requires k < |turns|
  {
    && CameFrom(codec, model(k), turns[k])
    && (turns[k].Corrected? ==> k + 1 < MAX_TURNS && Fabricated(turns[k].text, RunTrace(turns[..k], tools)))
  }

  ghost predicate Steps(codec: Codec, model: Model, tools: Tools, opening: seq<ChatMessage>,
                        requests: seq<seq<ChatMessage>>, turns: seq<Turn>)
  {
    StreamRun(requests, opening, turns, tools) && TurnsOk(codec, model, tools, turns)
  }

  ghost predicate TurnsOk(codec: Codec, model: Model, tools: Tools, turns: seq<Turn>) {
    forall k :: 0 <= k < |turns| ==> TurnOk(codec, model, tools, turns, k)
  }

  function RunEvents(codec: Codec, model: Model, tools: Tools, turns: seq<Turn>): seq<StreamEvent> {
    if turns == [] then []
    else
      var k := |turns| - 1;
      RunEvents(codec, model, tools, turns[..k]) + TurnEvents(codec, model(k), turns[k], tools, k)
  }

  /** A reply whose claim was not backed by a write is saved as the retraction. */
  function SavedText(turns: seq<Turn>, tools: Tools, text: string): string {
    if Fabricated(text, RunTrace(turns, tools)) then Retraction() else Accumulated(turns) + text
  }

  function EndEvents(codec: Codec, reply: StreamReply, turns: seq<Turn>, tools: Tools,
        ending: Ending): seq<StreamEvent> {
    match ending
    case Failed(message) => Output(codec, reply).events + [Error(message)]
    case Replied(text) =>
      Output(codec, reply).events
      + if Fabricated(text, RunTrace(turns, tools)) then [TextReplace(Retraction())] else []
    case OutOfTurns => [Error("chat agent exceeded MAX_TURNS (16)")]
  }

  function StopReason(ending: Ending): string {
    match ending
    case Failed(_) => "error"
    case Replied(_) => "end_turn"
    case OutOfTurns => "max_turns"
  }

  /** How a run ends, what it has streamed by then, and what it saves. */
  ghost predicate Ended(codec: Codec, model: Model, tools: Tools, log: RunLog) {
    var n, trace := |log.turns|, RunTrace(log.turns, tools);
    && log.events == RunEvents(codec, model, tools, log.turns)
                     + EndEvents(codec, model(n), log.turns, tools, log.ending)
                     + [MessageStop(StopReason(log.ending))]
    && match log.ending
       case Failed(message) =>
         && |log.requests| == n + 1
         && !Arrives(model(n))
         && message == (if model(n).Refused? then model(n).message else "stream read failed: " + Failure(model(n).chunks).value)
         && log.saved == None
       case Replied(text) =>
         && |log.requests| == n + 1
         && Arrives(model(n))
         && Output(codec, model(n)).calls == []
         && text == Said(false, Output(codec, model(n)).events)
         && (Fabricated(text, trace) ==> n + 1 == MAX_TURNS)
         && log.saved == Some(Saved(SavedText(log.turns, tools, text), trace))
       case OutOfTurns =>
         && |log.requests| == n == MAX_TURNS
         && log.saved == Some(Saved(Accumulated(log.turns), trace))
  }

  /** Every finished run streams a closed event sequence. */
  lemma EndedCloses(codec: Codec, model: Model, tools: Tools, log: RunLog)
    requires Ended(codec, model, tools, log)
    ensures Closed(log.events, StopReason(log.ending))
  {
    hide RunEvents, EndEvents, Open, Ended;
    RunEventsOpen(codec, model, tools, log.turns);
    EndEventsOpen(codec, model(|log.turns|), log.turns, tools, log.ending);
    var events := RunEvents(codec, model, tools, log.turns);
    var end := EndEvents(codec, model(|log.turns|), log.turns, tools, log.ending);
    OpenConcat(events, end);
    Closes(events + end, StopReason(log.ending));
    EndedEvents(codec, model, tools, log);
  }

  lemma EndedEvents(codec: Codec, model: Model, tools: Tools, log: RunLog)
    requires Ended(codec, model, tools, log)
    ensures log.events == RunEvents(codec, model, tools, log.turns)
                          + EndEvents(codec, model(|log.turns|), log.turns, tools, log.ending)
                          + [MessageStop(StopReason(log.ending))]
  {
    hide RunEvents, EndEvents;
  }

  lemma {:induction false} RunEventsOpen(codec: Codec, model: Model, tools: Tools, turns: seq<Turn>)
    ensures Open(RunEvents(codec, model, tools, turns))
  {
    hide TurnEvents;
    if turns != [] {
      var k := |turns| - 1;
      RunEventsOpen(codec, model, tools, turns[..k]);
      TurnEventsOpen(codec, model(k), turns[k], tools, k);
      OpenConcat(RunEvents(codec, model, tools, turns[..k]), TurnEvents(codec, model(k), turns[k], tools, k));
    }
  }

  lemma EndEventsOpen(codec: Codec, reply: StreamReply, turns: seq<Turn>, tools: Tools,
        ending: Ending)
    ensures Open(EndEvents(codec, reply, turns, tools, ending))
  {
    hide Output, Fabricated, Open, Retraction;
    var streamed := Output(codec, reply).events;
    OutputOpen(codec, reply);
    SingleOpen(TextReplace(Retraction()));
    OpenConcat(streamed, [TextReplace(Retraction())]);
    match ending {
      case Failed(message) =>
        SingleOpen(Error(message));
        OpenConcat(streamed, [Error(message)]);
      case Replied(_) => assert streamed + [] == streamed;
      case OutOfTurns => SingleOpen(Error("chat agent exceeded MAX_TURNS (16)"));
    }
  }

  /** Every request of every run is paired, and extends the one before. */
  lemma {:induction false} StreamRunPaired(requests: seq<seq<ChatMessage>>, opening: seq<ChatMessage>,
        turns: seq<Turn>, tools: Tools)
    requires StreamRun(requests, opening, turns, tools) && Paired(opening)
    ensures PairedRun(requests)
    decreases |requests|
  {
    hide NextStreamRequest, Paired;
    var last := |requests| - 1;
    if last > 0 {
      var before := requests[..last];
      assert StreamRun(before, opening, turns, tools);
      StreamRunPaired(before, opening, turns, tools);
      assert before[last - 1] == requests[last - 1];
      NextStreamPaired(requests[last - 1], turns[last - 1], tools, last - 1);
      forall k | 0 <= k < |requests|
        ensures Paired(requests[k]) && (k > 0 ==> requests[k - 1] <= requests[k])
      {
        if k < last {
          assert before[k] == requests[k];
          assert k > 0 ==> before[k - 1] == requests[k - 1];
        }
      }
    }
  }

  // ----- the agent -----

  /** The loop over a turn's tool calls: announce, run, trace, announce the result, keep the answer. */
  method RunTools(calls: seq<ParsedToolCall>, tools: Tools, turn: nat)
    returns (events: seq<StreamEvent>, trace: seq<ToolTrace>, results: seq<ContentBlock>)
    ensures events == ToolEvents(calls, tools, turn, 0)
    ensures trace == Traces(CallBlocks(calls), tools, turn, 0)
    ensures results == Results(CallBlocks(calls), tools, turn, 0)
  {
    hide ToolEvents, Traces, Results, CallBlocks;
    events, trace, results := [], [], [];
    var k := 0;
    assert calls[0..] == calls;
    while k < |calls|
      invariant 0 <= k <= |calls|
      invariant ToolEvents(calls, tools, turn, 0) == events + ToolEvents(calls[k..], tools, turn, k)
      invariant Traces(CallBlocks(calls), tools, turn, 0) == trace + Traces(CallBlocks(calls[k..]), tools, turn, k)
      invariant Results(CallBlocks(calls), tools, turn, 0) == results + Results(CallBlocks(calls[k..]), tools, turn, k)
    {
      NextCall(calls, tools, turn, k);
      var tc := calls[k];
      events := events + [ToolCall(tc.id, tc.name, tc.arguments)];
      var output := match tools(turn, k) case Ok(s) => s case Err(e) => "ERROR: " + e;
      trace := trace + [ToolTrace(turn, tc.name, tc.arguments, output)];
      events := events + [ToolResult(tc.id, tc.name, output)];
      results := results + [ToolResultBlock(tc.id, output)];
      k := k + 1;
    }
    assert calls[k..] == [];
    NoCalls(tools, turn, k);
  }

  lemma NoCalls(tools: Tools, turn: nat, k: nat)
    ensures ToolEvents([], tools, turn, k) == []
    ensures Traces(CallBlocks([]), tools, turn, k) == []
    ensures Results(CallBlocks([]), tools, turn, k) == []
  {
  }

  lemma NextCall(calls: seq<ParsedToolCall>, tools: Tools, turn: nat, k: nat)
    requires k < |calls|
    ensures var tc, rest := calls[k], calls[k + 1..];
            var output := Reply(tools(turn, k));
            && ToolEvents(calls[k..], tools, turn, k)
               == [ToolCall(tc.id, tc.name, tc.arguments), ToolResult(tc.id, tc.name, output)]
                  + ToolEvents(rest, tools, turn, k + 1)
            && Traces(CallBlocks(calls[k..]), tools, turn, k)
               == [ToolTrace(turn, tc.name, tc.arguments, output)] + Traces(CallBlocks(rest), tools, turn, k + 1)
            && Results(CallBlocks(calls[k..]), tools, turn, k)
               == [ToolResultBlock(tc.id, output)] + Results(CallBlocks(rest), tools, turn, k + 1)
  {
    assert calls[k..][0] == calls[k] && calls[k..][1..] == calls[k + 1..];
    assert CallBlocks(calls[k..])[1..] == CallBlocks(calls[k + 1..]);
  }

  method BuildAssistant(text: string, thinking: string, calls: seq<ParsedToolCall>) returns (blocks: seq<ContentBlock>)
    ensures blocks == AssistantBlocks(thinking, text, CallBlocks(calls))
  {
    blocks := [];
    if thinking != "" {
      blocks := blocks + [Thinking(thinking, None)];
    }
    if text != "" {
      blocks := blocks + [TextBlock(text)];
    }
    ghost var said := blocks;
    assert AssistantBlocks(thinking, text, CallBlocks(calls)) == said + CallBlocks(calls);
    var k := 0;
    assert calls[0..] == calls;
    while k < |calls|
      invariant 0 <= k <= |calls|
      invariant said + CallBlocks(calls) == blocks + CallBlocks(calls[k..])
    {
      assert calls[k..][1..] == calls[k + 1..];
      blocks := blocks + [ToolUse(calls[k].id, calls[k].name, calls[k].arguments)];
      k := k + 1;
    }
    assert calls[k..] == [];
  }

  lemma StepsStart(codec: Codec, model: Model, tools: Tools, opening: seq<ChatMessage>)
    ensures Steps(codec, model, tools, opening, [opening], [])
  {
    hide NextStreamRequest, TurnOk;
  }

  /** What the next turn of a run must satisfy. */
  ghost predicate Follows(codec: Codec, model: Model, tools: Tools, turns: seq<Turn>, t: Turn) {
    && CameFrom(codec, model(|turns|), t)
    && (t.Corrected? ==> |turns| + 1 < MAX_TURNS && Fabricated(t.text, RunTrace(turns, tools)))
  }

  lemma StepsGrow(codec: Codec, model: Model, tools: Tools, opening: seq<ChatMessage>,
                  requests: seq<seq<ChatMessage>>, turns: seq<Turn>, t: Turn, next: seq<ChatMessage>)
    requires |requests| == |turns| + 1 && next == NextStreamRequest(requests[|turns|], t, tools, |turns|)
    requires Steps(codec, model, tools, opening, requests, turns)
    requires Follows(codec, model, tools, turns, t)
    ensures Steps(codec, model, tools, opening, requests, turns + [t])
    ensures Steps(codec, model, tools, opening, requests + [next], turns + [t])
  {
    hide *;
    StepsAre(codec, model, tools, opening, requests, turns);
    StepsAre(codec, model, tools, opening, requests, turns + [t]);
    StepsAre(codec, model, tools, opening, requests + [next], turns + [t]);
    StreamRunGrows(requests, opening, turns, tools, t, next);
    TurnsOkGrow(codec, model, tools, turns, t);
  }

  lemma StepsAre(codec: Codec, model: Model, tools: Tools, opening: seq<ChatMessage>,
      requests: seq<seq<ChatMessage>>, turns: seq<Turn>)
    ensures Steps(codec, model, tools, opening, requests, turns)
            <==> StreamRun(requests, opening, turns, tools) && TurnsOk(codec, model, tools, turns)
  {
    hide StreamRun, TurnsOk;
  }

  lemma TurnsOkGrow(codec: Codec, model: Model, tools: Tools, turns: seq<Turn>, t: Turn)
    requires TurnsOk(codec, model, tools, turns)
    requires Follows(codec, model, tools, turns, t)
    ensures TurnsOk(codec, model, tools, turns + [t])
  {
    hide TurnOk, CameFrom, Fabricated, RunTrace;
    TurnOkLast(codec, model, tools, turns, t);
    forall k | 0 <= k < |turns|
      ensures TurnOk(codec, model, tools, turns + [t], k)
    {
      TurnOkKept(codec, model, tools, turns, t, k);
    }
  }

  lemma StreamRunGrows(requests: seq<seq<ChatMessage>>, opening: seq<ChatMessage>,
        turns: seq<Turn>, tools: Tools,
                       t: Turn, next: seq<ChatMessage>)
    requires StreamRun(requests, opening, turns, tools) && |requests| == |turns| + 1
    requires next == NextStreamRequest(requests[|turns|], t, tools, |turns|)
    ensures StreamRun(requests, opening, turns + [t], tools)
    ensures StreamRun(requests + [next], opening, turns + [t], tools)
  {
    hide NextStreamRequest;
    forall k | 0 <= k < |turns|
      ensures (turns + [t])[k] == turns[k]
    {
    }
  }

  lemma TurnOkLast(codec: Codec, model: Model, tools: Tools, turns: seq<Turn>, t: Turn)
    requires Follows(codec, model, tools, turns, t)
    ensures TurnOk(codec, model, tools, turns + [t], |turns|)
  {
    hide CameFrom, Fabricated, RunTrace;
    assert (turns + [t])[..|turns|] == turns;
  }

  lemma TurnOkKept(codec: Codec, model: Model, tools: Tools, turns: seq<Turn>, t: Turn, k: nat)
    requires k < |turns| && TurnOk(codec, model, tools, turns, k)
    ensures TurnOk(codec, model, tools, turns + [t], k)
  {
    hide CameFrom, Fabricated, RunTrace;
    assert (turns + [t])[..k] == turns[..k] && (turns + [t])[k] == turns[k];
  }

  lemma LogGrows(codec: Codec, model: Model, tools: Tools, turns: seq<Turn>, t: Turn)
    ensures var k := |turns|;
            && RunEvents(codec, model, tools, turns + [t])
               == RunEvents(codec, model, tools, turns) + TurnEvents(codec, model(k), t, tools, k)
            && RunTrace(turns + [t], tools) == RunTrace(turns, tools) + TurnTrace(t, tools, k)
            && Accumulated(turns + [t]) == Accumulated(turns) + if t.ToolTurn? then t.text else ""
  {
    hide TurnEvents, TurnTrace;
    assert (turns + [t])[..|turns|] == turns;
  }

  method ReadTurn(codec: Codec, format: StreamFormat, chunks: seq<Chunk>)
    returns (events: seq<StreamEvent>, calls: seq<ParsedToolCall>, text: string, thinking: string, failure: Option<string>)
    ensures TurnOutput(events, calls) == Output(codec, Opened(format, chunks))
    ensures text == Said(false, events) && thinking == Said(true, events)
    ensures failure == Failure(chunks)
  {
    hide Parsed;
    events, calls, failure := ReadStream(codec, format, chunks);
    text, thinking := Accumulate(events);
  }

  /** `stream_chat_agent` */
  method StreamChatAgent(codec: Codec, model: Model, tools: Tools, history: seq<ChatEngine.ChatTurn>,
        newMessage: string)
    returns (log: RunLog)
    ensures Steps(codec, model, tools, ChatEngine.Opening(history, newMessage), log.requests, log.turns)
    ensures |log.requests| <= 16 && PairedRun(log.requests)
    ensures log.ending.OutOfTurns? <==> |log.turns| == 16
    ensures Ended(codec, model, tools, log)
    ensures Closed(log.events, StopReason(log.ending))
  {
    log := RunTurns(codec, model, tools, ChatEngine.Opening(history, newMessage));
    ChatEngine.OpeningPaired(history, newMessage);
    StreamRunPaired(log.requests, ChatEngine.Opening(history, newMessage), log.turns, tools);
    EndedCloses(codec, model, tools, log);
  }

  method RunTurns(codec: Codec, model: Model, tools: Tools, opening: seq<ChatMessage>) returns (log: RunLog)
    ensures Steps(codec, model, tools, opening, log.requests, log.turns)
    ensures |log.requests| <= MAX_TURNS
    ensures Ended(codec, model, tools, log)
  {
    hide Steps, Output, Fabricated, RunTrace, RunEvents, Accumulated, Said, Traces, ToolEvents, Results, AssistantBlocks;
    hide SystemCheck, RetryNotice, Retraction, Ended, EndEvents, Failure;
    var messages := opening;
    var requests: seq<seq<ChatMessage>> := [];
    var turns: seq<Turn> := [];
    var events: seq<StreamEvent> := [];
    var fullAssistantText := "";
    var trace: seq<ToolTrace> := [];
    StepsStart(codec, model, tools, opening);
    assert [] + [messages] == [messages];
    NoTurns(codec, model, tools);

    for turn := 0 to MAX_TURNS
      invariant |requests| == |turns| == turn
      invariant Steps(codec, model, tools, opening, requests + [messages], turns)
      invariant turn > 0 ==> Steps(codec, model, tools, opening, requests, turns)
      invariant events == RunEvents(codec, model, tools, turns)
      invariant fullAssistantText == Accumulated(turns) && trace == RunTrace(turns, tools)
    {
      requests := requests + [messages];
      var reply := model(turn);
      if reply.Refused? {
        RefusedEnds(codec, model, tools, requests, turns);
        log := RunLog(requests, events + [Error(reply.message), MessageStop("error")], turns, Failed(reply.message), None);
        return;
      }
      var newEvents, calls, text, thinking, failure := ReadTurn(codec, reply.format, reply.chunks);
      assert reply == Opened(reply.format, reply.chunks);
      if failure.Some? {
        var message := "stream read failed: " + failure.value;
        BrokenEnds(codec, model, tools, requests, turns);
        log := RunLog(requests, events + newEvents + [Error(message), MessageStop("error")], turns, Failed(message), None);
        return;
      }
      if calls == [] {
        var fabricated := Fabricated(text, trace);
        if fabricated && turn + 1 < MAX_TURNS {
          ghost var t := Corrected(text);
          LogGrows(codec, model, tools, turns, t);
          Regroup(events, newEvents, [TextReplace(RetryNotice())]);
          events := events + newEvents + [TextReplace(RetryNotice())];
          var next := messages + [ChatMessage(Assistant, [TextBlock(text)])] + [ChatMessage(User, [TextBlock(SystemCheck())])];
          TwoPushes(messages, ChatMessage(Assistant, [TextBlock(text)]), ChatMessage(User, [TextBlock(SystemCheck())]));
          StepsGrow(codec, model, tools, opening, requests, turns, t, next);
          messages := next;
          turns := turns + [Corrected(text)];
          continue;
        }
        log := FinalReply(codec, model, tools, requests, events + newEvents, turns, fullAssistantText, text, trace);
        return;
      }
      fullAssistantText := fullAssistantText + text;
      var t := ToolTurn(text, thinking, calls);
      var blocks := BuildAssistant(text, thinking, calls);
      var toolEvents, toolTrace, toolResults := RunTools(calls, tools, turn);
      ResultsSkip(thinking, text, CallBlocks(calls), tools, turn);
      LogGrows(codec, model, tools, turns, t);
      Regroup(events, newEvents, toolEvents);
      events, trace := events + newEvents + toolEvents, trace + toolTrace;
      var next := messages + [ChatMessage(Assistant, blocks)] + [ChatMessage(User, toolResults)];
      TwoPushes(messages, ChatMessage(Assistant, blocks), ChatMessage(User, toolResults));
      StepsGrow(codec, model, tools, opening, requests, turns, t, next);
      messages := next;
      turns := turns + [t];
    }
    var message := "chat agent exceeded MAX_TURNS (16)";
    log := RunLog(requests, events + [Error(message), MessageStop("max_turns")], turns, OutOfTurns,
                  Some(Saved(fullAssistantText, trace)));
    OutOfTurnsEnds(codec, model, tools, requests, turns);
  }

  lemma RefusedEnds(codec: Codec, model: Model, tools: Tools, requests: seq<seq<ChatMessage>>, turns: seq<Turn>)
    requires |requests| == |turns| + 1 && model(|turns|).Refused?
    ensures var message := model(|turns|).message;
            var events := RunEvents(codec, model, tools, turns) + [Error(message), MessageStop("error")];
            Ended(codec, model, tools, RunLog(requests, events, turns, Failed(message), None))
  {
    hide RunEvents, RunTrace, Fabricated, Output;
    var message := model(|turns|).message;
    RefusedOutput(codec, model(|turns|));
    assert [] + [Error(message)] == [Error(message)];
    TwoPushes(RunEvents(codec, model, tools, turns), Error(message), MessageStop("error"));
  }

  lemma BrokenEnds(codec: Codec, model: Model, tools: Tools, requests: seq<seq<ChatMessage>>, turns: seq<Turn>)
    requires |requests| == |turns| + 1
    requires model(|turns|).Opened? && Failure(model(|turns|).chunks).Some?
    ensures var reply := model(|turns|);
            var message := "stream read failed: " + Failure(reply.chunks).value;
            var events := RunEvents(codec, model, tools, turns) + Output(codec, reply).events
                          + [Error(message), MessageStop("error")];
            Ended(codec, model, tools, RunLog(requests, events, turns, Failed(message), None))
  {
    hide RunEvents, RunTrace, Fabricated, Output;
    var reply := model(|turns|);
    var message := "stream read failed: " + Failure(reply.chunks).value;
    var events, more := RunEvents(codec, model, tools, turns), Output(codec, reply).events;
    TwoPushes(events + more, Error(message), MessageStop("error"));
    Regroup(events, more, [Error(message)]);
  }

  lemma OutOfTurnsEnds(codec: Codec, model: Model, tools: Tools, requests: seq<seq<ChatMessage>>, turns: seq<Turn>)
    requires |requests| == |turns| == MAX_TURNS
    ensures var message := "chat agent exceeded MAX_TURNS (16)";
            var events := RunEvents(codec, model, tools, turns) + [Error(message), MessageStop("max_turns")];
            var saved := Some(Saved(Accumulated(turns), RunTrace(turns, tools)));
            Ended(codec, model, tools, RunLog(requests, events, turns, OutOfTurns, saved))
  {
    hide RunEvents, RunTrace, Fabricated, Output, Accumulated;
    TwoPushes(RunEvents(codec, model, tools, turns), Error("chat agent exceeded MAX_TURNS (16)"), MessageStop("max_turns"));
  }

  lemma NoTurns(codec: Codec, model: Model, tools: Tools)
    ensures RunEvents(codec, model, tools, []) == [] && Accumulated([]) == "" && RunTrace([], tools) == []
  {
  }

  lemma RefusedOutput(codec: Codec, reply: StreamReply)
    requires reply.Refused?
    ensures Output(codec, reply).events == []
  {
  }

  /** The last turn: take back an unbacked claim, stop, and save what is left. */
  method FinalReply(codec: Codec, model: Model, tools: Tools, requests: seq<seq<ChatMessage>>,
        events0: seq<StreamEvent>,
               turns: seq<Turn>, full0: string, text: string, trace: seq<ToolTrace>)
    returns (log: RunLog)
    requires |requests| == |turns| + 1 && Arrives(model(|turns|))
    requires Output(codec, model(|turns|)).calls == [] && text == Said(false, Output(codec, model(|turns|)).events)
    requires events0 == RunEvents(codec, model, tools, turns) + Output(codec, model(|turns|)).events
    requires full0 == Accumulated(turns) && trace == RunTrace(turns, tools)
    requires Fabricated(text, trace) ==> |turns| + 1 == MAX_TURNS
    ensures log.requests == requests && log.turns == turns
    ensures Ended(codec, model, tools, log)
  {
    hide RunEvents, Output, RunTrace, Accumulated, Said, ClaimsWrite, AnyWriteCalled, Retraction;
    var full := full0 + text;
    var events := events0;
    if Fabricated(text, trace) {
      ClaimStays(full0, text);
      var retraction := DetectFabricatedAction(full, trace);
      if retraction.Some? {
        events := events + [TextReplace(retraction.value)];
        full := retraction.value;
      }
    }
    ghost var end := EndEvents(codec, model(|turns|), turns, tools, Replied(text));
    assert events == RunEvents(codec, model, tools, turns) + end;
    log := RunLog(requests, events + [MessageStop("end_turn")], turns, Replied(text), Some(Saved(full, trace)));
  }

  lemma ClaimStays(before: string, text: string)
    requires ClaimsWrite(text)
    ensures ClaimsWrite(before + text)
  {
    ClaimsMonotone(before, text, "");
    assert before + text + "" == before + text;
  }

  // ----- how far the guard reaches -----

  /** With no text in the turns that used tools, what is saved never claims a write nobody made. */
  lemma GuardCoversSilentTurns(turns: seq<Turn>, tools: Tools, text: string)
    requires forall i :: 0 <= i < |turns| && turns[i].ToolTurn? ==> turns[i].text == ""
    requires !Fabricated(text, RunTrace(turns, tools))
    ensures SavedText(turns, tools, text) == text
  {
    hide ClaimsWrite, AnyWriteCalled, Retraction;
    NothingAccumulated(turns);
    assert "" + text == text;
  }

  lemma {:induction false} NothingAccumulated(turns: seq<Turn>)
    requires forall i :: 0 <= i < |turns| && turns[i].ToolTurn? ==> turns[i].text == ""
    ensures Accumulated(turns) == ""
  {
    if turns != [] {
      NothingAccumulated(turns[..|turns| - 1]);
    }
  }

  lemma OutputDeltas(codec: Codec, reply: StreamReply)
    ensures AllDeltas(Output(codec, reply).events)
  {
    hide Parsed;
    if reply.Opened? {
      TurnOutputs(codec, reply.format, Received(reply.chunks));
    }
  }

  /** All that a run replied, before anything is taken back. */
  function ReplyOf(log: RunLog): string {
    Accumulated(log.turns) + if log.ending.Replied? then log.ending.text else ""
  }

  /**
   * How far the guard reaches, over every run that saves a reply. The promise is that a reply that
   * claims a commit without a matching tool call is retracted. The code retracts exactly the replies
   * that end the run themselves, in a run in which no write tool at all was called, and whose last
   * turn's text alone makes a claim; whatever else is claimed is saved as it stands.
   */
  lemma GuardReach(codec: Codec, model: Model, tools: Tools, log: RunLog)
    requires Ended(codec, model, tools, log) && log.saved.Some?
    ensures var trace, retracted := log.saved.value.trace, TextReplace(Retraction()) in log.events;
            && (retracted <==> log.ending.Replied? && !AnyWriteCalled(trace) && ClaimsWrite(log.ending.text))
            && (!CommitCalled(trace) && ClaimsWrite(ReplyOf(log)) ==>
                  (retracted <==> log.ending.Replied? && !OtherWriteCalled(trace) && ClaimsWrite(log.ending.text)))
            && log.saved.value.text == if retracted then Retraction() else ReplyOf(log)
  {
    hide Output, ClaimsWrite, AnyWriteCalled, Retraction, Accumulated, RunTrace, RunEvents, WriteTools;
    hide CommitCalled, OtherWriteCalled;
    var end := EndEvents(codec, model(|log.turns|), log.turns, tools, log.ending);
    WritesAreCommitsAndOthers(log.saved.value.trace);
    RunNeverRetracts(codec, model, tools, log.turns);
    DeltasNeverRetract(codec, model(|log.turns|));
    assert log.events == RunEvents(codec, model, tools, log.turns) + end + [MessageStop(StopReason(log.ending))];
    assert TextReplace(Retraction()) in log.events <==> TextReplace(Retraction()) in end;
    assert Accumulated(log.turns) + "" == Accumulated(log.turns);
  }

  lemma DeltasNeverRetract(codec: Codec, reply: StreamReply)
    ensures TextReplace(Retraction()) !in Output(codec, reply).events
  {
    hide Output, Retraction;
    OutputDeltas(codec, reply);
    var streamed := Output(codec, reply).events;
    forall i | 0 <= i < |streamed|
      ensures streamed[i] != TextReplace(Retraction())
    {
      assert streamed[i].IsDelta();
    }
  }

  lemma {:induction false} ToolsNeverRetract(calls: seq<ParsedToolCall>, tools: Tools, turn: nat, k: nat)
    ensures TextReplace(Retraction()) !in ToolEvents(calls, tools, turn, k)
    decreases |calls|
  {
    hide Retraction;
    if calls != [] {
      ToolsNeverRetract(calls[1..], tools, turn, k + 1);
    }
  }

  lemma NoticeIsNoRetraction()
    ensures RetryNotice() != Retraction()
  {
    assert RetryNotice()[0] == '(' && Retraction()[0] == '\U{26A0}';
  }

  lemma {:induction false} RunNeverRetracts(codec: Codec, model: Model, tools: Tools, turns: seq<Turn>)
    ensures TextReplace(Retraction()) !in RunEvents(codec, model, tools, turns)
  {
    hide Output, Retraction, RetryNotice, ToolEvents;
    if turns != [] {
      var k := |turns| - 1;
      RunNeverRetracts(codec, model, tools, turns[..k]);
      DeltasNeverRetract(codec, model(k));
      NoticeIsNoRetraction();
      if turns[k].ToolTurn? {
        ToolsNeverRetract(turns[k].calls, tools, k, 0);
      }
    }
  }

  // ----- three replies the promise covers and the guard lets pass -----

  /** A claim made beside an earlier read-only tool call is saved. */
  lemma EarlierClaimIsSaved(tools: Tools)
    ensures var turns := [ToolTurn("policy committed", "", [ParsedToolCall("t1", "read_market", Null)])];
            var trace := RunTrace(turns, tools);
            && !Fabricated("ok", trace)
            && SavedText(turns, tools, "ok") == "policy committed" + "ok"
            && Fabricated("policy committed" + "ok", trace)
  {
    hide ClaimsWrite, Retraction, RunTrace, Accumulated, Traces, CallBlocks;
    var turns := [ToolTurn("policy committed", "", [ParsedToolCall("t1", "read_market", Null)])];
    OneCallTurn(turns[0], tools);
    ShortTextClaimsNothing("ok");
    PhraseClaims("policy committed");
    ClaimsMonotone("", "policy committed", "ok");
    assert "" + "policy committed" + "ok" == "policy committed" + "ok";
  }

  lemma LogGrowsFromNothing(t: Turn, tools: Tools)
    ensures RunTrace([t], tools) == [] + TurnTrace(t, tools, 0)
    ensures Accumulated([t]) == "" + if t.ToolTurn? then t.text else ""
  {
    assert [t][..0] == [];
  }

  /** Another write tool's call acquits: with a pause in its trace a run may claim a commit. */
  lemma PauseAcquitsCommitClaim(tools: Tools)
    ensures var turns := [ToolTurn("", "", [ParsedToolCall("t1", "pause_policy", Null)])];
            var trace := RunTrace(turns, tools);
            && !CommitCalled(trace) && OtherWriteCalled(trace)
            && ClaimsWrite("policy committed")
            && SavedText(turns, tools, "policy committed") == "policy committed"
  {
    hide ClaimsWrite, Retraction, RunTrace, Accumulated;
    var turn := ToolTurn("", "", [ParsedToolCall("t1", "pause_policy", Null)]);
    OneCallTurn(turn, tools);
    PhraseClaims("policy committed");
    assert RunTrace([turn], tools)[0].name == "pause_policy";
    assert RunTrace([turn], tools)[0].name in WriteTools();
    assert "" + "policy committed" == "policy committed";
  }

  lemma OneCallTurn(t: Turn, tools: Tools)
    requires t.ToolTurn? && |t.calls| == 1
    ensures var call := t.calls[0];
            RunTrace([t], tools) == [ToolTrace(0, call.name, call.arguments, Reply(tools(0, 0)))]
    ensures Accumulated([t]) == t.text
  {
    var call := t.calls[0];
    var uses := CallBlocks(t.calls);
    assert t.calls[1..] == [];
    assert uses == [ToolUse(call.id, call.name, call.arguments)] + CallBlocks(t.calls[1..]) && uses[1..] == [];
    assert Traces(uses, tools, 0, 0)
        == [ToolTrace(0, call.name, call.arguments, Reply(tools(0, 0)))] + Traces(uses[1..], tools, 0, 1);
    LogGrowsFromNothing(t, tools);
    assert [] + Traces(uses, tools, 0, 0) == Traces(uses, tools, 0, 0);
    assert "" + t.text == t.text;
  }

  const CLAIM := "policy committed"
  const READ := ParsedToolCall("t1", "read_market", Null)

  /** A model that in every turn claims a commit and calls a tool that only reads. */
  predicate ClaimsAndReads(codec: Codec, reply: StreamReply) {
    Arrives(reply) && Output(codec, reply) == TurnOutput([TextDelta(CLAIM)], [READ])
  }

  /** The chunk of such a reply, as one server-sent event; "x" stands for its JSON text. */
  const CLAIMING_CHUNK := "data: x\n\n"

  function ClaimingCall(): Json {
    Obj(map["index" := Int(0), "id" := Str("t1"), "function" := Obj(map["name" := Str("read_market")])])
  }

  function ClaimingDelta(): Json {
    Obj(map["content" := Str(CLAIM), "tool_calls" := Arr([ClaimingCall()])])
  }

  function ClaimingChoice(): Json {
    Obj(map["delta" := ClaimingDelta(), "finish_reason" := Str("tool_calls")])
  }

  const CLAIMING_LINE := StreamParser.Choice("", CLAIM, [ToolAssembly.Fragment(0, Some("t1"), Some("read_market"), "")], true)

  /** There is such a reply. */
  lemma ClaimingReplyExists(codec: Codec)
    requires codec.parse("x") == Some(Obj(map["choices" := Arr([ClaimingChoice()])])) && codec.parse("") == None
    ensures ClaimsAndReads(codec, Opened(OpenAiSse, [Bytes(CLAIMING_CHUNK)]))
  {
    hide StreamParser.ApplyAll, StreamParser.ReadLine, SseFraming.Blocks, StreamParser.BlockLines, StreamParser.OpenAiFeedAll;
    hide Lines, ClaimingChoice, SseFraming.DropBlocks, SseFraming.FeedAll;
    var chunks := [CLAIMING_CHUNK];
    assert Received([Bytes(CLAIMING_CHUNK)]) == chunks && Failure([Bytes(CLAIMING_CHUNK)]) == None by {
      assert [Bytes(CLAIMING_CHUNK)][1..] == [];
    }
    assert Concat(chunks) == CLAIMING_CHUNK by {
      assert chunks[1..] == [];
    }
    StreamParser.StreamReadsLines(codec, StreamParser.OPENAI_START, chunks);
    ClaimingBlock();
    assert SseFraming.Blocks(CLAIMING_CHUNK)[..1] == ["data: x"] && ["data: x"][1..] == [];
    ClaimingLineRead(codec);
    assert StreamParser.StreamLines(codec, ["data: x"]) == [CLAIMING_LINE];
    ClaimingLineApplied(codec);
  }

  lemma ClaimingBlock()
    ensures SseFraming.Blocks(CLAIMING_CHUNK) == ["data: x"] && Lines("data: x") == ["data: x"]
  {
    var s := CLAIMING_CHUNK;
    assert forall j :: 0 <= j < 7 ==> s[j] != '\n';
    forall j | j < 7
      ensures !OccursAt(s, "\n\n", j)
    {
      if 0 <= j {
        assert s[j..j + 2][0] == s[j];
      }
    }
    assert s[7..9] == "\n\n";
    FindIs(s, "\n\n", 7);
    assert s[..7] == "data: x" && s[9..] == "";
    SseFraming.EmptyHasNoBlocks();
    forall j
      ensures !OccursAt("data: x", "\n", j)
    {
      if 0 <= j < 7 {
        assert "data: x"[j..j + 1][0] == "data: x"[j] == s[j];
      }
    }
    assert Find("data: x", "\n") == None;
  }

  lemma ClaimingLineRead(codec: Codec)
    requires codec.parse("x") == Some(Obj(map["choices" := Arr([ClaimingChoice()])]))
    ensures StreamParser.BlockLines(codec, ["data: x"]) == [CLAIMING_LINE]
  {
    assert Trim("data: x") == "data: x";
    assert "data: x"[6..] == "x" && "data: x"[..6] == SseFraming.DATA;
    ClaimingChoiceRead();
    assert StreamParser.ReadLine(codec, "data: x") == CLAIMING_LINE;
    assert ["data: x"][1..] == [];
  }

  lemma ClaimingChoiceRead()
    ensures StreamParser.FirstChoice(Obj(map["choices" := Arr([ClaimingChoice()])])) == Some(ClaimingChoice())
    ensures StreamParser.DeltaOf(ClaimingChoice()) == ClaimingDelta() && StreamParser.Finishes(ClaimingChoice())
    ensures ClaimingDelta().GetStr("reasoning_content") == None && ClaimingDelta().GetStr("content") == Some(CLAIM)
    ensures StreamParser.FragmentItems(ClaimingDelta()) == [ClaimingCall()]
    ensures StreamParser.ReadFragments([ClaimingCall()]) == CLAIMING_LINE.fragments
  {
    assert StreamParser.ReadFragment(ClaimingCall()) == CLAIMING_LINE.fragments[0];
  }

  lemma ClaimingLineApplied(codec: Codec)
    requires codec.parse("") == None
    ensures var turn := StreamParser.ApplyAll(codec, StreamParser.OPENAI_START, [CLAIMING_LINE]);
            turn.events == [TextDelta(CLAIM)] && turn.calls == [READ]
  {
    var line, st := CLAIMING_LINE, StreamParser.OPENAI_START;
    StreamParser.ApplyAllCons(codec, st, line, []);
    assert [line] + [] == [line];
    NothingHeld();
    var absorbed := ToolAssembly.PartialToolCall("t1", "read_market", "");
    assert ToolAssembly.Pad([], 0) == [ToolAssembly.EMPTY_SLOT];
    assert "" + "" == "";
    assert ToolAssembly.Absorb(codec, st.slots, line.fragments[0]) == ToolAssembly.Slots([absorbed], 0);
    assert line.fragments[1..] == [];
    assert ToolAssembly.AbsorbAll(codec, st.slots, line.fragments) == ToolAssembly.Slots([absorbed], 0);
    assert [absorbed][1..] == [];
    assert ToolAssembly.Flush(codec, [absorbed]) == [READ];
  }

  lemma NothingHeld()
    ensures ThinkSplitter.Feed(ThinkSplitter.State(false, ""), CLAIM)
            == ThinkSplitter.Fed([TextDelta(CLAIM)], ThinkSplitter.State(false, ""))
  {
    assert "" + CLAIM == CLAIM;
    assert forall i :: 0 <= i < |CLAIM| ==> CLAIM[i] != '<';
    ThinkSplitter.PlainTextIsSent(false, CLAIM);
  }

  /**
   * A run out of turns is never checked: every run of such a model ends so, and saves its claims
   * although no write tool was called and nothing was retracted.
   */
  lemma OutOfTurnsIsUnchecked(codec: Codec, model: Model, tools: Tools, opening: seq<ChatMessage>, log: RunLog)
    requires forall k :: ClaimsAndReads(codec, model(k))
    requires Steps(codec, model, tools, opening, log.requests, log.turns) && Ended(codec, model, tools, log)
    ensures log.ending.OutOfTurns? && log.saved.Some?
    ensures ClaimsWrite(log.saved.value.text) && !AnyWriteCalled(log.saved.value.trace)
    ensures TextReplace(Retraction()) !in log.events
  {
    hide Output, ClaimsWrite, AnyWriteCalled, Retraction, Accumulated, RunTrace, RunEvents, StreamRun, Fabricated;
    hide EndEvents, SavedText, Failure, Said;
    var n := |log.turns|;
    assert ClaimsAndReads(codec, model(n));
    forall k | 0 <= k < n
      ensures log.turns[k].ToolTurn? && log.turns[k].calls == [READ] && log.turns[k].text == CLAIM
    {
      assert ClaimsAndReads(codec, model(k)) && TurnOk(codec, model, tools, log.turns, k);
      ClaimSaid();
    }
    OnlyReads(log.turns, tools);
    ClaimAccumulates(log.turns);
    GuardReach(codec, model, tools, log);
  }

  lemma ClaimSaid()
    ensures Said(false, [TextDelta(CLAIM)]) == CLAIM
  {
    assert [TextDelta(CLAIM)][1..] == [];
    assert CLAIM + "" == CLAIM;
  }

  lemma {:induction false} OnlyReads(turns: seq<Turn>, tools: Tools)
    requires forall k :: 0 <= k < |turns| ==> turns[k].ToolTurn? && turns[k].calls == [READ]
    ensures !AnyWriteCalled(RunTrace(turns, tools))
  {
    if turns != [] {
      var k := |turns| - 1;
      OnlyReads(turns[..k], tools);
      var uses := CallBlocks([READ]);
      assert [READ][1..] == [];
      assert uses == [ToolUse("t1", "read_market", Null)] + CallBlocks([READ][1..]) && uses[1..] == [];
      assert Traces(uses, tools, k, 0)
          == [ToolTrace(k, "read_market", Null, Reply(tools(k, 0)))] + Traces(uses[1..], tools, k, 1);
      var before: seq<ToolTrace>, last: seq<ToolTrace> := RunTrace(turns[..k], tools), TurnTrace(turns[k], tools, k);
      var all := before + last;
      forall i | 0 <= i < |all|
        ensures all[i].name !in WriteTools()
      {
        assert i < |before| ==> before[i].name !in WriteTools();
      }
    }
  }

  lemma {:induction false} ClaimAccumulates(turns: seq<Turn>)
    requires turns != [] && turns[|turns| - 1].ToolTurn? && turns[|turns| - 1].text == CLAIM
    ensures ClaimsWrite(Accumulated(turns))
  {
    hide ClaimsWrite;
    var before := Accumulated(turns[..|turns| - 1]);
    PhraseClaims(CLAIM);
    ClaimsMonotone(before, CLAIM, "");
    assert before + CLAIM + "" == before + CLAIM;
  }
}

/** The incremental parser of Anthropic completion streams. */
module AnthropicParser {
  import opened Text
  import opened Json
  import opened StreamEvents
  import opened SseFraming
  import opened ToolAssembly

  const EVENT := "event: "

  datatype BlockType = TextBlock | ThinkingBlock | ToolUse(id: string, name: string, arguments: string)

  datatype AnthropicState = AnthropicState(current: Option<BlockType>, toolCalls: seq<PartialToolCall>)

  /** What one block of the stream says. */
  datatype Message =
    | Nothing
    | Start(block: BlockType)
    | TextPiece(text: string)
    | ThinkingPiece(text: string)
    | InputPiece(json: string)
    | BlockStop
    | MessageEnd

  /** The last `event:` line of a block. */
  function EventType(lines: seq<string>): string {
    if lines == [] then ""
    else
      var line := Trim(lines[|lines| - 1]);
      if StartsWith(line, EVENT) then Trim(line[|EVENT|..]) else EventType(lines[..|lines| - 1])
  }

  /** The last `data:` line of a block; earlier ones are dropped. */
  function DataLine(lines: seq<string>): string {
    if lines == [] then ""
    else
      var line := Trim(lines[|lines| - 1]);
      if !StartsWith(line, EVENT) && StartsWith(line, DATA) then line[|DATA|..] else DataLine(lines[..|lines| - 1])
  }

  function StrOr(j: Option<Json>, key: string): string {
    match j
    case None => ""
    case Some(v) => match v.GetStr(key) case Some(s) => s case None => ""
  }

  function ReadStart(data: Json): Message {
    var block := data.Get("content_block");
    var kind := StrOr(block, "type");
    if kind == "text" then Start(TextBlock)
    else if kind == "thinking" then Start(ThinkingBlock)
    else if kind == "tool_use" then Start(ToolUse(StrOr(block, "id"), StrOr(block, "name"), ""))
    else Nothing
  }

  function ReadDelta(data: Json): Message {
    var delta := data.Get("delta");
    var kind := StrOr(delta, "type");
    if kind == "text_delta" then TextPiece(StrOr(delta, "text"))
    else if kind == "thinking_delta" then ThinkingPiece(StrOr(delta, "thinking"))
    else if kind == "input_json_delta" then InputPiece(StrOr(delta, "partial_json"))
    else Nothing
  }

  function ReadMessage(codec: Codec, eventType: string, dataLine: string): Message {
    if dataLine == "" then Nothing
    else match codec.parse(dataLine)
      case None => Nothing
      case Some(data) =>
        if eventType == "content_block_start" then ReadStart(data)
        else if eventType == "content_block_delta" then ReadDelta(data)
        else if eventType == "content_block_stop" then BlockStop
        else if eventType == "message_delta" then
          if StrOr(data.Get("delta"), "stop_reason") in {"tool_use", "end_turn", "max_tokens"} then MessageEnd else Nothing
        else if eventType == "message_stop" then MessageEnd
        else Nothing
  }

  function Apply(codec: Codec, st: AnthropicState, m: Message): Turn<AnthropicState> {
    match m
    case Nothing => Turn(st, [], [])
    case Start(block) => Turn(st.(current := Some(block)), [], [])
    case TextPiece(text) => Turn(st, Emit(false, text), [])
    case ThinkingPiece(text) => Turn(st, Emit(true, text), [])
    case InputPiece(json) =>
      if st.current.Some? && st.current.value.ToolUse? then
        var block := st.current.value;
        Turn(st.(current := Some(block.(arguments := block.arguments + json))), [], [])
      else Turn(st, [], [])
    case BlockStop =>
      if st.current.Some? && st.current.value.ToolUse? then
        var block := st.current.value;
        Turn(AnthropicState(None, st.toolCalls + [PartialToolCall(block.id, block.name, block.arguments)]), [], [])
      else Turn(st.(current := None), [], [])
    case MessageEnd => Turn(st.(toolCalls := []), [], Flush(codec, st.toolCalls))
  }

  function AnthropicHandler(codec: Codec): Handler<AnthropicState> {
    (st: AnthropicState, block: string) =>
      Apply(codec, st, ReadMessage(codec, EventType(Lines(block)), DataLine(Lines(block))))
  }

  /** Nothing in a block makes this parser return early. */
  function NeverStops(): string -> bool {
    (block: string) => false
  }

  function AnthropicParse(codec: Codec, st: AnthropicState, buffer: string): Parsed<AnthropicState> {
    Parse(AnthropicHandler(codec), NeverStops(), st, buffer)
  }

  /** Anthropic streams: every chunking of every stream gives what one call on the whole gives. */
  lemma AnthropicChunkInvariance(codec: Codec, st: AnthropicState, chunks: seq<string>)
    ensures FeedAll(AnthropicHandler(codec), NeverStops(), st, "", chunks)
            == AnthropicParse(codec, st, Concat(chunks))
  {
    hide Parse, FeedAll, Blocks;
    var stream := Concat(chunks);
    ChunkInvariance(AnthropicHandler(codec), NeverStops(), st, stream);
    assert ChunkInvariant(AnthropicHandler(codec), NeverStops(), st, stream);
  }

  class AnthropicAccumulator {
    var currentBlock: Option<BlockType>
    var toolCalls: seq<PartialToolCall>

    constructor ()
      ensures Value() == AnthropicState(None, [])
    {
      currentBlock, toolCalls := None, [];
    }

    function Value(): AnthropicState
      reads this
    {
      AnthropicState(currentBlock, toolCalls)
    }

    method FlushTools(codec: Codec) returns (calls: seq<ParsedToolCall>)
      modifies this`toolCalls
      ensures calls == Flush(codec, old(toolCalls)) && toolCalls == []
    {
      calls := [];
      var i := 0;
      while i < |toolCalls|
        invariant 0 <= i <= |toolCalls| && toolCalls == old(toolCalls)
        invariant calls == Flush(codec, toolCalls[..i])
      {
        var pt := toolCalls[i];
        assert toolCalls[..i + 1] == toolCalls[..i] + [pt];
        FlushAppend(codec, toolCalls[..i], [pt]);
        if pt.name != "" {
          calls := calls + [ParsedToolCall(pt.id, pt.name, codec.ParseOrNull(pt.arguments))];
        }
        i := i + 1;
      }
      assert toolCalls[..i] == toolCalls;
      toolCalls := [];
    }

    method ApplyMessage(codec: Codec, m: Message) returns (events: seq<StreamEvent>, calls: seq<ParsedToolCall>)
      modifies this
      ensures Turn(Value(), events, calls) == Apply(codec, old(Value()), m)
    {
      events, calls := [], [];
      match m {
        case Nothing =>
        case Start(block) => currentBlock := Some(block);
        case TextPiece(text) =>
          if text != "" {
            events := [TextDelta(text)];
          }
        case ThinkingPiece(text) =>
          if text != "" {
            events := [ThinkingDelta(text)];
          }
        case InputPiece(json) =>
          if currentBlock.Some? && currentBlock.value.ToolUse? {
            var block := currentBlock.value;
            currentBlock := Some(block.(arguments := block.arguments + json));
          }
        case BlockStop =>
          var taken := currentBlock;
          currentBlock := None;
          if taken.Some? && taken.value.ToolUse? {
            toolCalls := toolCalls + [PartialToolCall(taken.value.id, taken.value.name, taken.value.arguments)];
          }
        case MessageEnd => calls := FlushTools(codec);
      }
    }

    /** `parse_anthropic_sse`: `rest` is what stays in the buffer. */
    method ParseAnthropicSse(codec: Codec, buffer: string)
      returns (events: seq<StreamEvent>, calls: seq<ParsedToolCall>, rest: string)
      modifies this
      ensures Parsed(Value(), events, calls, rest) == AnthropicParse(codec, old(Value()), buffer)
    {
      hide Apply, ReadMessage, Lines, EventType, DataLine;
      events, calls, rest := [], [], buffer;
      while true
        invariant AnthropicParse(codec, old(Value()), buffer) == AnthropicParse(codec, Value(), rest).After(events, calls)
        decreases |rest|
      {
        var found := Find(rest, "\n\n");
        if found.None? {
          break;
        }
        var block := rest[..found.value];
        ParseFirst(AnthropicHandler(codec), NeverStops(), Value(), rest, found.value);
        rest := rest[found.value + 2..];
        var eventType, dataLine := ReadLines(Lines(block));
        ghost var events0, calls0 := events, calls;
        var blockEvents, blockCalls := ApplyMessage(codec, ReadMessage(codec, eventType, dataLine));
        events, calls := events + blockEvents, calls + blockCalls;
        AfterTwice(AnthropicParse(codec, Value(), rest), events0, calls0, blockEvents, blockCalls);
      }
    }
  }

  method ReadLines(lines: seq<string>) returns (eventType: string, dataLine: string)
    ensures eventType == EventType(lines) && dataLine == DataLine(lines)
  {
    hide Trim;
    eventType, dataLine := "", "";
    var i := 0;
    while i < |lines|
      invariant 0 <= i <= |lines|
      invariant eventType == EventType(lines[..i]) && dataLine == DataLine(lines[..i])
    {
      var line := Trim(lines[i]);
      assert lines[..i + 1][..i] == lines[..i];
      if StartsWith(line, EVENT) {
        eventType := Trim(line[|EVENT|..]);
      } else if StartsWith(line, DATA) {
        dataLine := line[|DATA|..];
      }
      i := i + 1;
    }
    assert lines[..i] == lines;
  }

  // ----- the messages of a stream -----

  function Messages(codec: Codec, blocks: seq<string>): (r: seq<Message>)
    ensures |r| == |blocks|
  {
    if blocks == [] then []
    else [ReadMessage(codec, EventType(Lines(blocks[0])), DataLine(Lines(blocks[0])))] + Messages(codec, blocks[1..])
  }

  function ApplyAll(codec: Codec, st: AnthropicState, ms: seq<Message>): Turn<AnthropicState>
    decreases |ms|
  {
    if ms == [] then Turn(st, [], [])
    else
      var first := Apply(codec, st, ms[0]);
      var rest := ApplyAll(codec, first.state, ms[1..]);
      Turn(rest.state, first.events + rest.events, first.calls + rest.calls)
  }

  lemma ApplyAllSteps(codec: Codec, st: AnthropicState, ms: seq<Message>)
    requires ms != []
    ensures var first := Apply(codec, st, ms[0]);
            var rest := ApplyAll(codec, first.state, ms[1..]);
            ApplyAll(codec, st, ms) == Turn(rest.state, first.events + rest.events, first.calls + rest.calls)
    ensures ApplyAll(codec, st, []) == Turn(st, [], [])
  {
    hide Apply;
  }

  lemma {:induction false} ApplyAllConcat(codec: Codec, st: AnthropicState, a: seq<Message>, b: seq<Message>)
    ensures var first := ApplyAll(codec, st, a);
            var second := ApplyAll(codec, first.state, b);
            ApplyAll(codec, st, a + b) == Turn(second.state, first.events + second.events, first.calls + second.calls)
    decreases |a|
  {
    hide Apply, ApplyAll;
    if a == [] {
      assert a + b == b;
      ApplyAllSteps(codec, st, [Nothing]);
    } else {
      assert (a + b)[1..] == a[1..] + b;
      ApplyAllSteps(codec, st, a);
      ApplyAllSteps(codec, st, a + b);
      ApplyAllConcat(codec, Apply(codec, st, a[0]).state, a[1..], b);
    }
  }

  lemma ApplyAllOne(codec: Codec, st: AnthropicState, m: Message)
    ensures ApplyAll(codec, st, [m]) == Apply(codec, st, m)
  {
    hide Apply;
    assert [m][1..] == [];
  }

  lemma {:induction false} BlocksAreTheirMessages(codec: Codec, st: AnthropicState, blocks: seq<string>, rest: string)
    ensures var turn := ApplyAll(codec, st, Messages(codec, blocks));
            HandleAll(AnthropicHandler(codec), st, blocks, rest) == Parsed(turn.state, turn.events, turn.calls, rest)
    decreases |blocks|
  {
    hide Apply, ReadMessage, EventType, DataLine, Lines;
    if blocks != [] {
      var first := Apply(codec, st, Messages(codec, blocks)[0]);
      assert Messages(codec, blocks)[1..] == Messages(codec, blocks[1..]);
      BlocksAreTheirMessages(codec, first.state, blocks[1..], rest);
    }
  }

  // ----- what messages mean, said without an accumulator -----

  function JsonText(ms: seq<Message>): string {
    if ms == [] then "" else (if ms[0].InputPiece? then ms[0].json else "") + JsonText(ms[1..])
  }

  /** Where the block was started that is still open. */
  function LastOpen(ms: seq<Message>): (r: Option<nat>)
    ensures r.Some? ==> r.value < |ms| && ms[r.value].Start?
  {
    if ms == [] then None
    else
      var last := |ms| - 1;
      if ms[last].Start? then Some(last) else if ms[last].BlockStop? then None else LastOpen(ms[..last])
  }

  /** A tool-use start with all JSON pieces since; any other start as it is. */
  function OpenBlock(ms: seq<Message>): Option<BlockType> {
    match LastOpen(ms)
    case None => None
    case Some(t) =>
      var block := ms[t].block;
      Some(if block.ToolUse? then block.(arguments := block.arguments + JsonText(ms[t + 1..])) else block)
  }

  /** The tool-use blocks stopped since the last message end, in the order of their stops. */
  function Gathered(ms: seq<Message>): seq<PartialToolCall> {
    if ms == [] then []
    else
      var before, m := ms[..|ms| - 1], ms[|ms| - 1];
      var open := OpenBlock(before);
      if m.MessageEnd? then []
      else if m.BlockStop? && open.Some? && open.value.ToolUse? then
        Gathered(before) + [PartialToolCall(open.value.id, open.value.name, open.value.arguments)]
      else Gathered(before)
  }

  /** At each message end, the calls of the blocks gathered since the one before. */
  function CallsOf(codec: Codec, ms: seq<Message>): seq<ParsedToolCall> {
    if ms == [] then []
    else
      var before, m := ms[..|ms| - 1], ms[|ms| - 1];
      CallsOf(codec, before) + if m.MessageEnd? then Flush(codec, Gathered(before)) else []
  }

  function DeltaOf(m: Message): seq<StreamEvent> {
    match m
    case TextPiece(text) => Emit(false, text)
    case ThinkingPiece(text) => Emit(true, text)
    case _ => []
  }

  /** Every text and thinking piece, in order, as it came. */
  function DeltasOf(ms: seq<Message>): seq<StreamEvent> {
    if ms == [] then [] else DeltasOf(ms[..|ms| - 1]) + DeltaOf(ms[|ms| - 1])
  }

  lemma JsonTextSteps(ms: seq<Message>)
    requires ms != []
    ensures JsonText(ms) == (if ms[0].InputPiece? then ms[0].json else "") + JsonText(ms[1..])
  {
  }

  lemma {:induction false} JsonTextLast(ms: seq<Message>, m: Message)
    ensures JsonText(ms + [m]) == JsonText(ms) + if m.InputPiece? then m.json else ""
    decreases |ms|
  {
    hide JsonText;
    var last := if m.InputPiece? then m.json else "";
    NoJsonText();
    JsonTextSteps(ms + [m]);
    if ms == [] {
      assert (ms + [m])[1..] == [];
      assert last + "" == "" + last;
    } else {
      var first := if ms[0].InputPiece? then ms[0].json else "";
      assert (ms + [m])[0] == ms[0] && (ms + [m])[1..] == ms[1..] + [m];
      JsonTextLast(ms[1..], m);
      JsonTextSteps(ms);
      assert first + (JsonText(ms[1..]) + last) == (first + JsonText(ms[1..])) + last;
    }
  }

  lemma OpenBlockLast(ms: seq<Message>, m: Message)
    ensures var open := OpenBlock(ms);
            OpenBlock(ms + [m]) ==
            if m.Start? then Some(if m.block.ToolUse? then m.block.(arguments := m.block.arguments + "") else m.block)
            else if m.BlockStop? then None
            else if m.InputPiece? && open.Some? && open.value.ToolUse? then
              Some(open.value.(arguments := open.value.arguments + m.json))
            else open
  {
    hide JsonText;
    var all := ms + [m];
    assert all[..|ms|] == ms && all[|ms| + 1..] == [];
    NoJsonText();
    match LastOpen(ms)
    case None =>
    case Some(t) =>
      assert all[t + 1..] == ms[t + 1..] + [m];
      JsonTextLast(ms[t + 1..], m);
      if m.InputPiece? && ms[t].block.ToolUse? {
        var arguments := ms[t].block.arguments;
        assert arguments + (JsonText(ms[t + 1..]) + m.json) == arguments + JsonText(ms[t + 1..]) + m.json;
      } else {
        assert JsonText(ms[t + 1..]) + "" == JsonText(ms[t + 1..]);
      }
  }

  lemma NoJsonText()
    ensures JsonText([]) == ""
  {
  }

  /** The accumulator holds, and the parser sends, exactly what the messages mean. */
  lemma {:induction false} MessagesMean(codec: Codec, ms: seq<Message>)
    ensures ApplyAll(codec, AnthropicState(None, []), ms)
            == Turn(AnthropicState(OpenBlock(ms), Gathered(ms)), DeltasOf(ms), CallsOf(codec, ms))
    decreases |ms|
  {
    hide Apply, ApplyAll, OpenBlock, Flush;
    var start := AnthropicState(None, []);
    if ms == [] {
      ApplyAllSteps(codec, start, [Nothing]);
      NothingOpen();
    } else {
      var before, m := ms[..|ms| - 1], ms[|ms| - 1];
      assert ms == before + [m];
      MessagesMean(codec, before);
      ApplyAllConcat(codec, start, before, [m]);
      ApplyAllOne(codec, AnthropicState(OpenBlock(before), Gathered(before)), m);
      OpenBlockLast(before, m);
      MessageMeans(codec, before, m);
    }
  }

  lemma NothingOpen()
    ensures OpenBlock([]) == None
  {
  }

  lemma MessageMeans(codec: Codec, before: seq<Message>, m: Message)
    ensures var turn := Apply(codec, AnthropicState(OpenBlock(before), Gathered(before)), m);
            && turn.state == AnthropicState(OpenBlock(before + [m]), Gathered(before + [m]))
            && turn.events == DeltaOf(m)
            && turn.calls == if m.MessageEnd? then Flush(codec, Gathered(before)) else []
  {
    hide OpenBlock, Flush;
    OpenBlockLast(before, m);
    assert (before + [m])[..|before|] == before;
    if m.Start? && m.block.ToolUse? {
      assert m.block.arguments + "" == m.block.arguments;
    }
  }

  /**
   * What a whole stream gives, whatever the chunks: its text and thinking pieces as deltas in
   * order, and at each message end one call for each named tool-use block stopped since the one
   * before, with the in-order concatenation of the JSON pieces between its start and its stop.
   */
  lemma StreamMeans(codec: Codec, chunks: seq<string>)
    ensures var stream := Concat(chunks);
            var ms := Messages(codec, Blocks(stream));
            AnthropicFeedAll(codec, chunks)
            == Parsed(AnthropicState(OpenBlock(ms), Gathered(ms)), DeltasOf(ms), CallsOf(codec, ms), Leftover(stream))
  {
    hide Blocks, DropBlocks, FeedAll, HandleAll, Leftover, Messages, ApplyAll, OpenBlock, Gathered, DeltasOf, CallsOf;
    var stream := Concat(chunks);
    var n := Taken(NeverStops(), chunks);
    FeedTakes(AnthropicHandler(codec), NeverStops(), AnthropicState(None, []), chunks);
    AllTaken(NeverStops(), chunks);
    assert Blocks(stream)[..n] == Blocks(stream);
    DroppedBlocks(stream, n);
    BlocksAreTheirMessages(codec, AnthropicState(None, []), Blocks(stream), Leftover(stream));
    MessagesMean(codec, Messages(codec, Blocks(stream)));
  }

  /** What a message leaves as it is. */
  predicate Idle(st: AnthropicState, m: Message) {
    match m
    case Nothing => true
    case Start(block) => st.current == Some(block)
    case TextPiece(text) => text == ""
    case ThinkingPiece(text) => text == ""
    case InputPiece(json) => json == "" || st.current.None? || !st.current.value.ToolUse?
    case BlockStop => st.current.None?
    case MessageEnd => st.toolCalls == []
  }

  lemma IdleExactlyWhen(codec: Codec, st: AnthropicState, m: Message)
    ensures Apply(codec, st, m) == Turn(st, [], []) <==> Idle(st, m)
  {
    if m.InputPiece? && st.current.Some? && st.current.value.ToolUse? {
      var arguments := st.current.value.arguments;
      assert arguments + "" == arguments;
      assert |arguments + m.json| == |arguments| + |m.json|;
    }
  }

  /**
   * Text behind the last blank line of a body is never read. Closing the body would add exactly the
   * message of that text, and would change what is sent, called or held exactly when it is not idle.
   */
  lemma UnclosedLostExactlyWhen(codec: Codec, chunks: seq<string>)
    ensures var stream := Concat(chunks);
            var ms, closed := Messages(codec, Blocks(stream)), Messages(codec, Blocks(stream + "\n\n"));
            var fed, more := AnthropicFeedAll(codec, chunks), AnthropicFeedAll(codec, chunks + ["\n\n"]);
            var m := ReadMessage(codec, EventType(Lines(Unclosed(stream))), DataLine(Lines(Unclosed(stream))));
            && closed == ms + [m]
            && (more.state == fed.state && more.events == fed.events && more.calls == fed.calls <==> Idle(fed.state, m))
  {
    hide Blocks, Leftover, FeedAll, Unclosed, ReadMessage, EventType, DataLine, Lines, Apply, Idle;
    var stream, start := Concat(chunks), AnthropicState(None, []);
    ClosingCompletes(stream);
    MessagesLast(codec, Blocks(stream), Unclosed(stream));
    AllTaken(NeverStops(), chunks);
    ClosingMattersExactlyWhen(AnthropicHandler(codec), NeverStops(), start, chunks);
    var m := ReadMessage(codec, EventType(Lines(Unclosed(stream))), DataLine(Lines(Unclosed(stream))));
    IdleExactlyWhen(codec, AnthropicFeedAll(codec, chunks).state, m);
  }

  lemma {:induction false} MessagesLast(codec: Codec, blocks: seq<string>, block: string)
    ensures Messages(codec, blocks + [block])
            == Messages(codec, blocks) + [ReadMessage(codec, EventType(Lines(block)), DataLine(Lines(block)))]
    decreases |blocks|
  {
    hide ReadMessage, EventType, DataLine, Lines;
    if blocks == [] {
      assert (blocks + [block])[1..] == [];
    } else {
      assert (blocks + [block])[1..] == blocks[1..] + [block];
      MessagesLast(codec, blocks[1..], block);
    }
  }

  // ----- tool use blocks -----

  predicate IsPiece(m: Message) {
    m.Nothing? || m.TextPiece? || m.ThinkingPiece? || m.InputPiece?
  }

  lemma StopAddsCall(codec: Codec, st: AnthropicState, block: BlockType)
    requires block.ToolUse? && st.current == Some(block)
    ensures Apply(codec, st, BlockStop)
            == Turn(AnthropicState(None, st.toolCalls + [PartialToolCall(block.id, block.name, block.arguments)]), [], [])
  {
  }

  /**
   * A tool-use block, whatever deltas come between its start and its stop, adds exactly one call:
   * its id, its name, and the in-order concatenation of its JSON pieces.
   */
  lemma {:induction false} ToolUseBlockAssembles(codec: Codec, st: AnthropicState, block: BlockType,
      pieces: seq<Message>)
    requires block.ToolUse? && st.current == Some(block)
    requires forall i :: 0 <= i < |pieces| ==> IsPiece(pieces[i])
    ensures var turn := ApplyAll(codec, st, pieces + [BlockStop]);
            && turn.state == AnthropicState(None, st.toolCalls
                                                  + [PartialToolCall(block.id, block.name, block.arguments + JsonText(pieces))])
            && turn.calls == []
    decreases |pieces|
  {
    hide Apply, ApplyAll, JsonText, IsPiece;
    var ms := pieces + [BlockStop];
    if pieces == [] {
      assert ms == [BlockStop];
      ApplyAllOne(codec, st, BlockStop);
      StopAddsCall(codec, st, block);
      NoJsonText();
      assert block.arguments + "" == block.arguments;
    } else {
      var m, rest := pieces[0], pieces[1..];
      assert ms[0] == m && ms[1..] == rest + [BlockStop];
      ApplyAllSteps(codec, st, ms);
      var json := PieceGrows(codec, st, block, m);
      ToolUseBlockAssembles(codec, Apply(codec, st, m).state, block.(arguments := block.arguments + json), rest);
      JsonTextSteps(pieces);
      assert (block.arguments + json) + JsonText(rest) == block.arguments + (json + JsonText(rest));
    }
  }

  /** In a stream: such a block behind any messages is gathered, and a message end right after calls it. */
  lemma {:induction false} ToolUseBlockIsCalled(codec: Codec, before: seq<Message>, block: BlockType, pieces: seq<Message>)
    requires block.ToolUse?
    requires forall i :: 0 <= i < |pieces| ==> IsPiece(pieces[i])
    ensures var ms := before + [Start(block)] + (pieces + [BlockStop]);
            var call := PartialToolCall(block.id, block.name, block.arguments + JsonText(pieces));
            && Gathered(ms) == Gathered(before) + [call]
            && CallsOf(codec, ms + [MessageEnd])
               == CallsOf(codec, before) + Flush(codec, Gathered(before)) + Flush(codec, [call])
  {
    hide Apply, ApplyAll, OpenBlock, Gathered, CallsOf, DeltasOf, JsonText, Flush;
    var start, started := AnthropicState(None, []), before + [Start(block)];
    var ms := started + (pieces + [BlockStop]);
    var call := PartialToolCall(block.id, block.name, block.arguments + JsonText(pieces));
    MessagesMean(codec, started);
    MessagesMean(codec, ms);
    ApplyAllConcat(codec, start, started, pieces + [BlockStop]);
    OpenBlockLast(before, Start(block));
    assert block.arguments + "" == block.arguments;
    ToolUseBlockAssembles(codec, AnthropicState(OpenBlock(started), Gathered(started)), block, pieces);
    MessageGathers(codec, before, Start(block));
    MessageGathers(codec, ms, MessageEnd);
    FlushAppend(codec, Gathered(before), [call]);
  }

  lemma MessageGathers(codec: Codec, before: seq<Message>, m: Message)
    ensures m.Start? ==> Gathered(before + [m]) == Gathered(before)
    ensures CallsOf(codec, before + [m])
            == CallsOf(codec, before) + if m.MessageEnd? then Flush(codec, Gathered(before)) else []
  {
    hide OpenBlock, Flush;
    assert (before + [m])[..|before|] == before;
  }

  lemma PieceGrows(codec: Codec, st: AnthropicState, block: BlockType, m: Message)
    returns (json: string)
    requires block.ToolUse? && st.current == Some(block) && IsPiece(m)
    ensures json == if m.InputPiece? then m.json else ""
    ensures Apply(codec, st, m).calls == []
    ensures Apply(codec, st, m).state == st.(current := Some(block.(arguments := block.arguments + json)))
  {
    json := if m.InputPiece? then m.json else "";
    assert block.arguments + "" == block.arguments;
  }

  function AnthropicFeedAll(codec: Codec, chunks: seq<string>): Parsed<AnthropicState> {
    FeedAll(AnthropicHandler(codec), NeverStops(), AnthropicState(None, []), "", chunks)
  }

  /** Every event of a stream is a non-empty delta, and every tool call has a name. */
  lemma AnthropicOutput(codec: Codec, chunks: seq<string>)
    ensures var r := AnthropicFeedAll(codec, chunks);
            && AllDeltas(r.events)
            && forall c :: c in r.calls ==> c.name != ""
  {
    hide ReadMessage, Lines, EventType, DataLine, FeedAll;
    forall s: AnthropicState, block: string
      ensures forall c :: c in AnthropicHandler(codec)(s, block).calls ==> c.name != ""
    {
      FlushedCallsAreNamed(codec, s.toolCalls);
    }
    FeedAllKeeps(AnthropicHandler(codec), NeverStops(), AnthropicState(None, []), "", chunks,
                 (s: AnthropicState) => true, (c: ParsedToolCall) => c.name != "");
  }

  lemma {:induction false} FlushedCallsAreNamed(codec: Codec, tools: seq<PartialToolCall>)
    ensures forall c :: c in Flush(codec, tools) ==> c.name != ""
  {
    if tools != [] {
      FlushedCallsAreNamed(codec, tools[1..]);
    }
  }
}

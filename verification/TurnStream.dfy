/** Reading the streamed body of one model turn through the parser of its format. */
module TurnStream {
  import opened Text
  import opened Json
  import opened StreamEvents
  import SseFraming
  import StreamParser
  import AnthropicParser

  datatype StreamFormat = OpenAiSse | AnthropicSse

  /** One read from the provider's body; text is what lossy UTF-8 decoding made of the bytes. */
  datatype Chunk = Bytes(text: string) | ReadError(message: string)

  datatype StreamReply = Refused(message: string) | Opened(format: StreamFormat, chunks: seq<Chunk>)

  /** The texts that arrive before the body ends or a read fails. */
  function Received(chunks: seq<Chunk>): seq<string> {
    if chunks == [] || chunks[0].ReadError? then [] else [chunks[0].text] + Received(chunks[1..])
  }

  /** The first failing read. */
  function Failure(chunks: seq<Chunk>): Option<string> {
    if chunks == [] then None
    else if chunks[0].ReadError? then Some(chunks[0].message)
    else Failure(chunks[1..])
  }

  datatype TurnOutput = TurnOutput(events: seq<StreamEvent>, calls: seq<ParsedToolCall>)

  /** What the format's parser makes of the chunks of a turn. */
  function Parsed(codec: Codec, format: StreamFormat, texts: seq<string>): TurnOutput {
    match format
    case OpenAiSse =>
      var p := StreamParser.OpenAiFeedAll(codec, StreamParser.OPENAI_START, texts);
      TurnOutput(p.events, p.calls)
    case AnthropicSse =>
      var p := AnthropicParser.AnthropicFeedAll(codec, texts);
      TurnOutput(p.events, p.calls)
  }

  /** What one event adds to the text, or to the thinking. */
  function Piece(thinking: bool, e: StreamEvent): string {
    if thinking && e.ThinkingDelta? then e.text
    else if !thinking && e.TextDelta? then e.text
    else ""
  }

  /** The text, or the thinking, that the events carry together. */
  function Said(thinking: bool, events: seq<StreamEvent>): string {
    if events == [] then "" else Piece(thinking, events[0]) + Said(thinking, events[1..])
  }

  lemma {:induction false} SaidLast(thinking: bool, events: seq<StreamEvent>, e: StreamEvent)
    ensures Said(thinking, events + [e]) == Said(thinking, events) + Piece(thinking, e)
  {
    hide Piece;
    if events == [] {
      assert (events + [e])[1..] == [];
    } else {
      assert (events + [e])[1..] == events[1..] + [e];
      SaidLast(thinking, events[1..], e);
      var first, rest, last := Piece(thinking, events[0]), Said(thinking, events[1..]), Piece(thinking, e);
      assert first + (rest + last) == (first + rest) + last;
    }
  }

  /** The loop over the events of a turn. */
  method Accumulate(events: seq<StreamEvent>) returns (text: string, thinking: string)
    ensures text == Said(false, events) && thinking == Said(true, events)
  {
    text, thinking := "", "";
    for i := 0 to |events|
      invariant text == Said(false, events[..i]) && thinking == Said(true, events[..i])
    {
      assert events[..i + 1] == events[..i] + [events[i]];
      SaidLast(false, events[..i], events[i]);
      SaidLast(true, events[..i], events[i]);
      if events[i].TextDelta? {
        text := text + events[i].text;
      } else if events[i].ThinkingDelta? {
        thinking := thinking + events[i].text;
      }
    }
    assert events[..|events|] == events;
  }

  /** What is still to come from accumulators, a buffer, and the texts not yet read. */
  function Remaining(codec: Codec, format: StreamFormat, openai: StreamParser.OpenAiState,
      anthropic: AnthropicParser.AnthropicState, buffer: string, texts: seq<string>): TurnOutput
  {
    match format
    case OpenAiSse =>
      var p := SseFraming.FeedAll(StreamParser.OpenAiHandler(codec), StreamParser.OpenAiStopsAt(), openai, buffer, texts);
      TurnOutput(p.events, p.calls)
    case AnthropicSse =>
      var p := SseFraming.FeedAll(AnthropicParser.AnthropicHandler(codec), AnthropicParser.NeverStops(), anthropic, buffer, texts);
      TurnOutput(p.events, p.calls)
  }

  lemma OpenAiTextRead(codec: Codec, openai: StreamParser.OpenAiState,
      anthropic: AnthropicParser.AnthropicState, buffer: string, text: string, later: seq<string>)
    ensures var p := StreamParser.OpenAiParse(codec, openai, buffer + text);
            var rest := Remaining(codec, OpenAiSse, p.state, anthropic, p.rest, later);
            Remaining(codec, OpenAiSse, openai, anthropic, buffer, [text] + later)
            == TurnOutput(p.events + rest.events, p.calls + rest.calls)
  {
    hide SseFraming.Parse, SseFraming.FeedAll, StreamParser.OpenAiHandler;
    SseFraming.FeedFirst(StreamParser.OpenAiHandler(codec), StreamParser.OpenAiStopsAt(), openai, buffer, text, later);
  }

  lemma AnthropicTextRead(codec: Codec, openai: StreamParser.OpenAiState,
      anthropic: AnthropicParser.AnthropicState, buffer: string, text: string, later: seq<string>)
    ensures var p := AnthropicParser.AnthropicParse(codec, anthropic, buffer + text);
            var rest := Remaining(codec, AnthropicSse, openai, p.state, p.rest, later);
            Remaining(codec, AnthropicSse, openai, anthropic, buffer, [text] + later)
            == TurnOutput(p.events + rest.events, p.calls + rest.calls)
  {
    hide SseFraming.Parse, SseFraming.FeedAll, AnthropicParser.AnthropicHandler;
    SseFraming.FeedFirst(AnthropicParser.AnthropicHandler(codec), AnthropicParser.NeverStops(), anthropic, buffer, text, later);
  }

  /** One more text of a body, handled by the parser of its format. */
  predicate Reads(codec: Codec, format: StreamFormat, openai0: StreamParser.OpenAiState,
      anthropic0: AnthropicParser.AnthropicState, openai: StreamParser.OpenAiState,
      anthropic: AnthropicParser.AnthropicState, buffer: string, out: TurnOutput, rest: string)
  {
    match format
    case OpenAiSse =>
      anthropic == anthropic0
      && SseFraming.Parsed(openai, out.events, out.calls, rest) == StreamParser.OpenAiParse(codec, openai0, buffer)
    case AnthropicSse =>
      openai == openai0
      && SseFraming.Parsed(anthropic, out.events, out.calls, rest) == AnthropicParser.AnthropicParse(codec, anthropic0, buffer)
  }

  lemma TextRead(codec: Codec, format: StreamFormat, openai0: StreamParser.OpenAiState,
      anthropic0: AnthropicParser.AnthropicState, openai: StreamParser.OpenAiState,
      anthropic: AnthropicParser.AnthropicState, buffer: string, text: string, later: seq<string>, out: TurnOutput,
      rest: string, before: TurnOutput)
    requires Reads(codec, format, openai0, anthropic0, openai, anthropic, buffer + text, out, rest)
    ensures var whole := Remaining(codec, format, openai0, anthropic0, buffer, [text] + later);
            var left := Remaining(codec, format, openai, anthropic, rest, later);
            TurnOutput(before.events + whole.events, before.calls + whole.calls)
            == TurnOutput((before.events + out.events) + left.events, (before.calls + out.calls) + left.calls)
  {
    hide Remaining, StreamParser.OpenAiParse, AnthropicParser.AnthropicParse;
    if format.OpenAiSse? {
      OpenAiTextRead(codec, openai0, anthropic0, buffer, text, later);
    } else {
      AnthropicTextRead(codec, openai0, anthropic0, buffer, text, later);
    }
    var left := Remaining(codec, format, openai, anthropic, rest, later);
    assert before.events + (out.events + left.events) == (before.events + out.events) + left.events;
    assert before.calls + (out.calls + left.calls) == (before.calls + out.calls) + left.calls;
  }

  lemma NothingRemains(codec: Codec, format: StreamFormat, openai: StreamParser.OpenAiState,
      anthropic: AnthropicParser.AnthropicState, buffer: string)
    ensures Remaining(codec, format, openai, anthropic, buffer, []) == TurnOutput([], [])
  {
  }

  method Read(codec: Codec, format: StreamFormat, openai: StreamParser.OpenAiAccumulator,
      anthropic: AnthropicParser.AnthropicAccumulator, buffer: string)
    returns (events: seq<StreamEvent>, calls: seq<ParsedToolCall>, rest: string)
    modifies openai, anthropic
    ensures Reads(codec, format, old(openai.Value()), old(anthropic.Value()), openai.Value(), anthropic.Value(), buffer,
                  TurnOutput(events, calls), rest)
  {
    hide StreamParser.OpenAiParse, AnthropicParser.AnthropicParse;
    match format {
      case OpenAiSse => events, calls, rest := openai.ParseOpenAiSse(codec, buffer);
      case AnthropicSse => events, calls, rest := anthropic.ParseAnthropicSse(codec, buffer);
    }
  }

  /** Read the body of a turn: append, parse, append, until it ends or a read fails. */
  method ReadStream(codec: Codec, format: StreamFormat, chunks: seq<Chunk>)
    returns (events: seq<StreamEvent>, calls: seq<ParsedToolCall>, failure: Option<string>)
    ensures TurnOutput(events, calls) == Parsed(codec, format, Received(chunks))
    ensures failure == Failure(chunks)
  {
    hide Remaining, Parsed, Reads, StreamParser.OpenAiParse, AnthropicParser.AnthropicParse;
    events, calls, failure := [], [], None;
    var buffer := "";
    var openai := new StreamParser.OpenAiAccumulator();
    var anthropic := new AnthropicParser.AnthropicAccumulator();
    ghost var whole := Parsed(codec, format, Received(chunks));
    ParsedRemains(codec, format, Received(chunks));
    var i := 0;
    assert chunks[0..] == chunks;
    while i < |chunks|
      invariant 0 <= i <= |chunks| && fresh(openai) && fresh(anthropic)
      invariant var rest := Remaining(codec, format, openai.Value(), anthropic.Value(), buffer, Received(chunks[i..]));
                whole == TurnOutput(events + rest.events, calls + rest.calls)
      invariant Failure(chunks) == Failure(chunks[i..])
    {
      assert chunks[i..][0] == chunks[i] && chunks[i..][1..] == chunks[i + 1..];
      NothingRemains(codec, format, openai.Value(), anthropic.Value(), buffer);
      match chunks[i] {
        case ReadError(message) =>
          failure := Some(message);
          return;
        case Bytes(text) =>
          ghost var later := Received(chunks[i + 1..]);
          ghost var openai0, anthropic0 := openai.Value(), anthropic.Value();
          var newEvents, newCalls, rest := Read(codec, format, openai, anthropic, buffer + text);
          TextRead(codec, format, openai0, anthropic0, openai.Value(), anthropic.Value(), buffer, text, later,
                   TurnOutput(newEvents, newCalls), rest, TurnOutput(events, calls));
          buffer, events, calls := rest, events + newEvents, calls + newCalls;
      }
      i := i + 1;
    }
    assert chunks[i..] == [];
    NothingRemains(codec, format, openai.Value(), anthropic.Value(), buffer);
  }

  lemma ParsedRemains(codec: Codec, format: StreamFormat, texts: seq<string>)
    ensures Parsed(codec, format, texts)
            == Remaining(codec, format, StreamParser.OPENAI_START, AnthropicParser.AnthropicState(None, []), "", texts)
  {
  }

  /**
   * What a turn says and calls depends on the joined text alone, not on its chunks: always with an
   * Anthropic body, and with an OpenAI body in which no `[DONE]` precedes the last complete block.
   */
  lemma ChunksIrrelevant(codec: Codec, format: StreamFormat, texts: seq<string>)
    requires format.OpenAiSse? ==> !StreamParser.DoneBeforeLastBlock(Concat(texts))
    ensures Parsed(codec, format, texts) == Parsed(codec, format, [Concat(texts)])
  {
    hide SseFraming.FeedAll, SseFraming.Parse, StreamParser.OpenAiHandler, AnthropicParser.AnthropicHandler;
    hide StreamParser.DoneBeforeLastBlock;
    var whole := Concat(texts);
    assert Concat([whole]) == whole by {
      assert [whole][1..] == [];
    }
    var start := AnthropicParser.AnthropicState(None, []);
    AnthropicParser.AnthropicChunkInvariance(codec, start, texts);
    AnthropicParser.AnthropicChunkInvariance(codec, start, [whole]);
    StreamParser.OpenAiChunkInvariance(codec, StreamParser.OPENAI_START, whole);
  }

  /** A turn streams deltas only, and each of its tool calls has a name; OpenAI's have an id too. */
  lemma TurnOutputs(codec: Codec, format: StreamFormat, texts: seq<string>)
    ensures var r := Parsed(codec, format, texts);
            && AllDeltas(r.events)
            && forall c :: c in r.calls ==> c.name != "" && (format.OpenAiSse? ==> c.id != "")
  {
    if format.OpenAiSse? {
      StreamParser.OpenAiOutput(codec, texts);
    } else {
      AnthropicParser.AnthropicOutput(codec, texts);
    }
  }
}

/**
 * The incremental parser of OpenAI-compatible completion streams.
 *
 * The parser is a block handler on values (`OpenAiHandler`) run by the framing of `SseFraming`, and
 * a method that changes an accumulator in place and is proved to compute it. What whole streams say
 * and call is then read off their lines.
 */
module StreamParser {
  import opened Text
  import opened Json
  import opened StreamEvents
  import opened SseFraming
  import opened ToolAssembly
  import ThinkSplitter

  // ----- OpenAI-compatible streams -----

  const DONE_LINE := "data: [DONE]"

  datatype OpenAiState = OpenAiState(slots: Slots, think: ThinkSplitter.State)

  const OPENAI_START := OpenAiState(Slots([], 0), ThinkSplitter.State(false, ""))

  /** What one line of a block asks for; absent and empty texts mean the same. */
  datatype Line =
    | Skip
    | Done
    | Choice(reasoning: string, content: string, fragments: seq<Fragment>, finish: bool)

  function TextOr(value: Option<string>, default: string): string {
    if value.Some? then value.value else default
  }

  function ReadFragment(j: Json): Fragment {
    var index := match j.Get("index")
                 case Some(v) => (match v.AsU64() case Some(n) => n case None => 0)
                 case None => 0;
    match j.Get("function")
    case Some(func) => Fragment(index, j.GetStr("id"), func.GetStr("name"), TextOr(func.GetStr("arguments"), ""))
    case None => Fragment(index, j.GetStr("id"), None, "")
  }

  function ReadFragments(items: seq<Json>): (r: seq<Fragment>)
    ensures |r| == |items|
    ensures forall i :: 0 <= i < |r| ==> r[i] == ReadFragment(items[i])
  {
    seq(|items|, i requires 0 <= i < |items| => ReadFragment(items[i]))
  }

  function FragmentItems(delta: Json): seq<Json> {
    match delta.Get("tool_calls")
    case Some(v) => (match v.AsArr() case Some(items) => items case None => [])
    case None => []
  }

  function FirstChoice(j: Json): Option<Json> {
    match j.Get("choices")
    case Some(c) => (match c.AsArr() case Some(items) => if items == [] then None else Some(items[0]) case None => None)
    case None => None
  }

  predicate Finishes(choice: Json) {
    choice.GetStr("finish_reason") in {Some("tool_calls"), Some("stop"), Some("length")}
  }

  function DeltaOf(choice: Json): Json {
    match choice.Get("delta") case Some(d) => d case None => Null
  }

  function ReadLine(codec: Codec, raw: string): Line {
    var line := Trim(raw);
    if !StartsWith(line, DATA) then Skip
    else if line == DONE_LINE then Done
    else match codec.parse(line[|DATA|..])
      case None => Skip
      case Some(j) => match FirstChoice(j)
        case None => Skip
        case Some(choice) =>
          var delta := DeltaOf(choice);
          Choice(TextOr(delta.GetStr("reasoning_content"), ""), TextOr(delta.GetStr("content"), ""),
                 ReadFragments(FragmentItems(delta)), Finishes(choice))
  }

  /** The tail held back by the splitter goes out when the model finishes. */
  function Finish(codec: Codec, st: OpenAiState): Turn<OpenAiState> {
    Turn(OpenAiState(Slots([], st.slots.drawn), ThinkSplitter.State(st.think.thinking, "")),
         ThinkSplitter.Flush(st.think), Flush(codec, st.slots.tools))
  }

  function FeedContent(st: ThinkSplitter.State, content: string): ThinkSplitter.Fed {
    if content == "" then ThinkSplitter.Fed([], st) else ThinkSplitter.Feed(st, content)
  }

  function ApplyLine(codec: Codec, st: OpenAiState, line: Line): Turn<OpenAiState> {
    match line
    case Skip => Turn(st, [], [])
    case Done => Turn(st.(slots := Slots([], st.slots.drawn)), [], Flush(codec, st.slots.tools))
    case Choice(reasoning, content, fragments, finish) =>
      var fed := FeedContent(st.think, content);
      var next := OpenAiState(AbsorbAll(codec, st.slots, fragments), fed.state);
      var events := Emit(true, reasoning) + fed.events;
      if !finish then Turn(next, events, [])
      else
        var end := Finish(codec, next);
        Turn(end.state, events + end.events, end.calls)
  }

  /** The lines of a block, up to and including `[DONE]`. */
  function ApplyLines(codec: Codec, st: OpenAiState, lines: seq<string>): Turn<OpenAiState>
    decreases |lines|
  {
    if lines == [] then Turn(st, [], [])
    else
      var line := ReadLine(codec, lines[0]);
      var turn := ApplyLine(codec, st, line);
      if line.Done? then turn
      else
        var rest := ApplyLines(codec, turn.state, lines[1..]);
        Turn(rest.state, turn.events + rest.events, turn.calls + rest.calls)
  }

  predicate IsDone(raw: string) {
    Trim(raw) == DONE_LINE
  }

  predicate LinesStop(lines: seq<string>) {
    exists i :: 0 <= i < |lines| && IsDone(lines[i])
  }

  predicate OpenAiStops(block: string) {
    LinesStop(Lines(block))
  }

  function OpenAiHandler(codec: Codec): Handler<OpenAiState> {
    (st: OpenAiState, block: string) => ApplyLines(codec, st, Lines(block))
  }

  function OpenAiStopsAt(): string -> bool {
    (block: string) => OpenAiStops(block)
  }

  function OpenAiParse(codec: Codec, st: OpenAiState, buffer: string): Parsed<OpenAiState> {
    Parse(OpenAiHandler(codec), OpenAiStopsAt(), st, buffer)
  }

  function OpenAiFeedAll(codec: Codec, st: OpenAiState, chunks: seq<string>): Parsed<OpenAiState> {
    FeedAll(OpenAiHandler(codec), OpenAiStopsAt(), st, "", chunks)
  }

  /** `[DONE]` on a line of any block but the last complete one. */
  ghost predicate DoneBeforeLastBlock(stream: string) {
    exists k :: 0 <= k < |Blocks(stream)| - 1 && OpenAiStops(Blocks(stream)[k])
  }

  /**
   * OpenAI streams: every chunking gives the events, tool calls, leftover and accumulator of one
   * call on the whole stream exactly when no `[DONE]` precedes the last complete block.
   */
  lemma OpenAiChunkInvariance(codec: Codec, st: OpenAiState, stream: string)
    ensures (forall chunks: seq<string> :: Concat(chunks) == stream
                                           ==> OpenAiFeedAll(codec, st, chunks) == OpenAiParse(codec, st, stream))
            <==> !DoneBeforeLastBlock(stream)
  {
    hide Parse, FeedAll, Blocks, OpenAiStops;
    ChunkInvariance(OpenAiHandler(codec), OpenAiStopsAt(), st, stream);
  }

  class OpenAiAccumulator {
    var partialTools: seq<PartialToolCall>
    var pendingText: string
    var inThinkBlock: bool
    var drawn: nat

    constructor ()
      ensures Value() == OPENAI_START
    {
      partialTools, pendingText, inThinkBlock, drawn := [], "", false, 0;
    }

    function Value(): OpenAiState
      reads this
    {
      OpenAiState(Slots(partialTools, drawn), ThinkSplitter.State(inThinkBlock, pendingText))
    }

    method FlushTools(codec: Codec) returns (calls: seq<ParsedToolCall>)
      modifies this`partialTools
      ensures calls == Flush(codec, old(partialTools)) && partialTools == []
    {
      calls := [];
      var i := 0;
      while i < |partialTools|
        invariant 0 <= i <= |partialTools| && partialTools == old(partialTools)
        invariant calls == Flush(codec, partialTools[..i])
      {
        var pt := partialTools[i];
        assert partialTools[..i + 1] == partialTools[..i] + [pt];
        FlushAppend(codec, partialTools[..i], [pt]);
        if pt.name != "" {
          calls := calls + [ParsedToolCall(pt.id, pt.name, codec.ParseOrNull(pt.arguments))];
        }
        i := i + 1;
      }
      assert partialTools[..i] == partialTools;
      partialTools := [];
    }

    method AbsorbFragment(codec: Codec, f: Fragment)
      modifies this`partialTools, this`drawn
      ensures Slots(partialTools, drawn) == Absorb(codec, old(Slots(partialTools, drawn)), f)
    {
      while |partialTools| <= f.index
        invariant Pad(partialTools, f.index) == Pad(old(partialTools), f.index)
        invariant drawn == old(drawn)
      {
        partialTools := partialTools + [PartialToolCall("", "", "")];
      }
      var slot := partialTools[f.index];
      if f.id.Some? {
        slot := slot.(id := f.id.value);
      }
      if f.name.Some? {
        slot := slot.(name := f.name.value);
      }
      slot := slot.(arguments := slot.arguments + f.arguments);
      if slot.id == "" && slot.name != "" {
        slot := slot.(id := "call_" + codec.uuid(drawn));
        drawn := drawn + 1;
      }
      partialTools := partialTools[f.index := slot];
    }

    /** The search for the longest held-back tail, from the longest candidate down. */
    method HoldBack(buf: string, marker: string) returns (hold: nat)
      requires |marker| > 0
      ensures hold == ThinkSplitter.Hold(buf, marker)
    {
      hold := 0;
      var n := |marker| - 1;
      while n >= 1
        invariant 0 <= n < |marker|
        invariant hold == 0
        invariant forall k: nat :: k > n ==> !ThinkSplitter.Border(buf, marker, k)
      {
        if |buf| >= n && StartsWith(marker, buf[|buf| - n..]) {
          hold := n;
          break;
        }
        n := n - 1;
      }
      ThinkSplitter.HoldIs(buf, marker, hold);
    }

    method SplitInlineThink(chunk: string, out: seq<StreamEvent>) returns (r: seq<StreamEvent>)
      modifies this`pendingText, this`inThinkBlock
      ensures r == out + ThinkSplitter.Feed(old(Value().think), chunk).events
      ensures Value().think == ThinkSplitter.Feed(old(Value().think), chunk).state
    {
      hide ThinkSplitter.Split, ThinkSplitter.Hold, ThinkSplitter.Marker, Find;
      var buf := pendingText + chunk;
      pendingText := "";
      r := out;
      ghost var whole := ThinkSplitter.Split(inThinkBlock, buf);
      while true
        invariant whole.state == ThinkSplitter.Split(inThinkBlock, buf).state
        invariant out + whole.events == r + ThinkSplitter.Split(inThinkBlock, buf).events
        invariant pendingText == ""
        decreases |buf|
      {
        var marker := ThinkSplitter.Marker(inThinkBlock);
        var found := Find(buf, marker);
        if found.Some? {
          ThinkSplitter.SplitAtMarker(inThinkBlock, buf, found.value);
          var before := buf[..found.value];
          if before != "" {
            r := r + [Delta(inThinkBlock, before)];
          }
          buf := buf[found.value + |marker|..];
          inThinkBlock := !inThinkBlock;
          continue;
        }
        ThinkSplitter.SplitWithoutMarker(inThinkBlock, buf);
        var hold := HoldBack(buf, marker);
        if hold > 0 {
          var cut := |buf| - hold;
          if buf[..cut] != "" {
            r := r + [Delta(inThinkBlock, buf[..cut])];
          }
          pendingText := buf[cut..];
        } else if buf != "" {
          assert buf[..|buf|] == buf;
          r := r + [Delta(inThinkBlock, buf)];
        }
        break;
      }
    }

    method AbsorbFragments(codec: Codec, fragments: seq<Fragment>)
      modifies this`partialTools, this`drawn
      ensures Slots(partialTools, drawn) == AbsorbAll(codec, old(Slots(partialTools, drawn)), fragments)
    {
      hide Absorb;
      var i := 0;
      while i < |fragments|
        invariant 0 <= i <= |fragments|
        invariant AbsorbAll(codec, Slots(partialTools, drawn), fragments[i..])
                  == AbsorbAll(codec, old(Slots(partialTools, drawn)), fragments)
      {
        assert fragments[i..][1..] == fragments[i + 1..];
        AbsorbFragment(codec, fragments[i]);
        i := i + 1;
      }
    }

    method FinishTurn(codec: Codec, events: seq<StreamEvent>)
      returns (events': seq<StreamEvent>, calls: seq<ParsedToolCall>)
      modifies this
      ensures var end := Finish(codec, old(Value()));
              Value() == end.state && events' == events + end.events && calls == end.calls
    {
      events' := events;
      if pendingText != "" {
        events' := events' + [Delta(inThinkBlock, pendingText)];
        pendingText := "";
      }
      calls := FlushTools(codec);
    }

    method ApplyChoice(codec: Codec, line: Line, events: seq<StreamEvent>)
      returns (events': seq<StreamEvent>, calls: seq<ParsedToolCall>)
      requires line.Choice?
      modifies this
      ensures var turn := ApplyLine(codec, old(Value()), line);
              Value() == turn.state && events' == events + turn.events && calls == turn.calls
    {
      hide ThinkSplitter.Feed, AbsorbAll, Finish;
      events', calls := events, [];
      if line.reasoning != "" {
        events' := events' + [ThinkingDelta(line.reasoning)];
      }
      assert events' == events + Emit(true, line.reasoning);
      if line.content != "" {
        events' := SplitInlineThink(line.content, events');
      }
      AbsorbFragments(codec, line.fragments);
      if line.finish {
        events', calls := FinishTurn(codec, events');
      }
    }

    /** The lines of one block; `stop` when `[DONE]` ended them. */
    method ParseBlock(codec: Codec, lines: seq<string>)
      returns (events: seq<StreamEvent>, calls: seq<ParsedToolCall>, stop: bool)
      modifies this
      ensures Turn(Value(), events, calls) == ApplyLines(codec, old(Value()), lines)
      ensures stop == LinesStop(lines)
    {
      hide ApplyLine, ReadLine, IsDone, ApplyLines, Flush;
      events, calls := [], [];
      ghost var turn := ApplyLines(codec, Value(), lines);
      assert lines[0..] == lines;
      var i := 0;
      while i < |lines|
        invariant 0 <= i <= |lines|
        invariant turn == Before(events, calls, ApplyLines(codec, Value(), lines[i..]))
        invariant forall k :: 0 <= k < i ==> !IsDone(lines[k])
      {
        LineDone(codec, lines[i]);
        var line := ReadLine(codec, lines[i]);
        ApplyLinesFirst(codec, Value(), lines, i);
        if line.Done? {
          DoneLine(codec, Value());
          var flushed := FlushTools(codec);
          return events, calls + flushed, true;
        }
        ghost var st := Value();
        SkipLine(codec, st);
        ghost var events0, calls0 := events, calls;
        if line.Choice? {
          var more;
          events, more := ApplyChoice(codec, line, events);
          calls := calls + more;
        }
        BeforeTwice(events0, calls0, ApplyLine(codec, st, line), ApplyLines(codec, Value(), lines[i + 1..]));
        i := i + 1;
      }
      assert lines[i..] == [];
      NoLines(codec, Value());
      return events, calls, false;
    }

    /** `parse_openai_sse`: `rest` is what stays in the buffer. */
    method ParseOpenAiSse(codec: Codec, buffer: string)
      returns (events: seq<StreamEvent>, calls: seq<ParsedToolCall>, rest: string)
      modifies this
      ensures Parsed(Value(), events, calls, rest) == OpenAiParse(codec, old(Value()), buffer)
    {
      hide ApplyLines, Lines;
      events, calls, rest := [], [], buffer;
      while true
        invariant OpenAiParse(codec, old(Value()), buffer) == OpenAiParse(codec, Value(), rest).After(events, calls)
        decreases |rest|
      {
        var found := Find(rest, "\n\n");
        if found.None? {
          break;
        }
        var block := rest[..found.value];
        ParseFirst(OpenAiHandler(codec), OpenAiStopsAt(), Value(), rest, found.value);
        rest := rest[found.value + 2..];
        ghost var events0, calls0 := events, calls;
        var blockEvents, blockCalls, stop := ParseBlock(codec, Lines(block));
        events, calls := events + blockEvents, calls + blockCalls;
        AfterTwice(OpenAiParse(codec, Value(), rest), events0, calls0, blockEvents, blockCalls);
        if stop {
          break;
        }
      }
    }
  }

  /** A handler's result with earlier output put in front. */
  function Before<S>(events: seq<StreamEvent>, calls: seq<ParsedToolCall>, turn: Turn<S>): Turn<S> {
    Turn(turn.state, events + turn.events, calls + turn.calls)
  }

  lemma BeforeTwice<S>(events: seq<StreamEvent>, calls: seq<ParsedToolCall>, first: Turn<S>,
        rest: Turn<S>)
    ensures Before(events, calls, Before(first.events, first.calls, rest))
            == Before(events + first.events, calls + first.calls, rest)
  {
  }

  lemma SkipLine(codec: Codec, st: OpenAiState)
    ensures ApplyLine(codec, st, Skip) == Turn(st, [], [])
  {
  }

  lemma NoLines(codec: Codec, st: OpenAiState)
    ensures ApplyLines(codec, st, []) == Turn(st, [], [])
  {
  }

  lemma DoneLine(codec: Codec, st: OpenAiState)
    ensures ApplyLine(codec, st, Done)
            == Turn(OpenAiState(Slots([], st.slots.drawn), st.think), [], Flush(codec, st.slots.tools))
  {
  }

  lemma LineDone(codec: Codec, raw: string)
    ensures ReadLine(codec, raw).Done? <==> IsDone(raw)
  {
  }

  lemma ApplyLinesFirst(codec: Codec, st: OpenAiState, lines: seq<string>, i: nat)
    requires i < |lines|
    ensures var line := ReadLine(codec, lines[i]);
            var turn := ApplyLine(codec, st, line);
            var rest := ApplyLines(codec, turn.state, lines[i + 1..]);
            ApplyLines(codec, st, lines[i..]) ==
            if line.Done? then turn else Before(turn.events, turn.calls, rest)
  {
    assert lines[i..][0] == lines[i] && lines[i..][1..] == lines[i + 1..];
  }

  // ----- what every OpenAI stream keeps -----

  lemma ApplyLineKeeps(codec: Codec, st: OpenAiState, line: Line)
    requires Identified(st.slots.tools)
    ensures var turn := ApplyLine(codec, st, line);
            && Identified(turn.state.slots.tools)
            && AllDeltas(turn.events)
            && forall c :: c in turn.calls ==> Callable(c)
  {
    FlushedCallsAreCallable(codec, st.slots.tools);
    if line.Choice? {
      AbsorbAllIdentifies(codec, st.slots, line.fragments);
      FlushedCallsAreCallable(codec, AbsorbAll(codec, st.slots, line.fragments).tools);
    }
  }

  lemma {:induction false} ApplyLinesKeeps(codec: Codec, st: OpenAiState, lines: seq<string>)
    requires Identified(st.slots.tools)
    ensures var turn := ApplyLines(codec, st, lines);
            && Identified(turn.state.slots.tools)
            && AllDeltas(turn.events)
            && forall c :: c in turn.calls ==> Callable(c)
    decreases |lines|
  {
    hide ApplyLine, ReadLine;
    if lines != [] {
      var line := ReadLine(codec, lines[0]);
      ApplyLineKeeps(codec, st, line);
      ApplyLinesKeeps(codec, ApplyLine(codec, st, line).state, lines[1..]);
    }
  }

  /** Every event of a stream is a non-empty delta, and every tool call has an id and a name. */
  lemma OpenAiOutput(codec: Codec, chunks: seq<string>)
    ensures var r := OpenAiFeedAll(codec, OPENAI_START, chunks);
            && AllDeltas(r.events)
            && forall c :: c in r.calls ==> Callable(c)
  {
    hide ApplyLines, Lines, FeedAll;
    forall s: OpenAiState, block: string | Identified(s.slots.tools)
      ensures var turn := OpenAiHandler(codec)(s, block);
              && Identified(turn.state.slots.tools)
              && AllDeltas(turn.events)
              && forall c :: c in turn.calls ==> Callable(c)
    {
      ApplyLinesKeeps(codec, s, Lines(block));
    }
    FeedAllKeeps(OpenAiHandler(codec), OpenAiStopsAt(), OPENAI_START, "", chunks,
                 (s: OpenAiState) => Identified(s.slots.tools), c => Callable(c));
  }

  // ----- the lines of a stream -----

  /** The lines of one block that are read: up to and including `[DONE]`. */
  function BlockLines(codec: Codec, lines: seq<string>): seq<Line> {
    if lines == [] then []
    else
      var line := ReadLine(codec, lines[0]);
      [line] + if line.Done? then [] else BlockLines(codec, lines[1..])
  }

  function StreamLines(codec: Codec, blocks: seq<string>): seq<Line> {
    if blocks == [] then [] else BlockLines(codec, Lines(blocks[0])) + StreamLines(codec, blocks[1..])
  }

  /** The lines of a stream applied one after another. */
  function ApplyAll(codec: Codec, st: OpenAiState, lines: seq<Line>): Turn<OpenAiState>
    decreases |lines|
  {
    if lines == [] then Turn(st, [], [])
    else
      var turn := ApplyLine(codec, st, lines[0]);
      Before(turn.events, turn.calls, ApplyAll(codec, turn.state, lines[1..]))
  }

  lemma ApplyAllCons(codec: Codec, st: OpenAiState, line: Line, rest: seq<Line>)
    ensures var turn := ApplyLine(codec, st, line);
            ApplyAll(codec, st, [line] + rest)
            == Before(turn.events, turn.calls, ApplyAll(codec, turn.state, rest))
    ensures ApplyAll(codec, st, []) == Turn(st, [], [])
  {
    assert ([line] + rest)[1..] == rest;
  }

  lemma {:induction false} ApplyAllConcat(codec: Codec, st: OpenAiState, a: seq<Line>, b: seq<Line>)
    ensures var first := ApplyAll(codec, st, a);
            ApplyAll(codec, st, a + b) == Before(first.events, first.calls, ApplyAll(codec, first.state, b))
    decreases |a|
  {
    hide ApplyAll, ApplyLine;
    if a == [] {
      assert a + b == b;
      ApplyAllCons(codec, st, Skip, []);
    } else {
      var turn := ApplyLine(codec, st, a[0]);
      var first := ApplyAll(codec, turn.state, a[1..]);
      assert a == [a[0]] + a[1..] && a + b == [a[0]] + (a[1..] + b);
      ApplyAllCons(codec, st, a[0], a[1..]);
      ApplyAllCons(codec, st, a[0], a[1..] + b);
      ApplyAllConcat(codec, turn.state, a[1..], b);
      BeforeTwice(turn.events, turn.calls, first, ApplyAll(codec, first.state, b));
    }
  }

  lemma {:induction false} BlockIsItsLines(codec: Codec, st: OpenAiState, lines: seq<string>)
    ensures ApplyLines(codec, st, lines) == ApplyAll(codec, st, BlockLines(codec, lines))
    decreases |lines|
  {
    hide ApplyAll, ApplyLine, ReadLine;
    if lines == [] {
      ApplyAllCons(codec, st, Skip, []);
    } else {
      var line := ReadLine(codec, lines[0]);
      var turn := ApplyLine(codec, st, line);
      if line.Done? {
        ApplyAllCons(codec, st, line, []);
        ApplyAllCons(codec, turn.state, Skip, []);
        assert [line] + [] == [line];
      } else {
        ApplyAllCons(codec, st, line, BlockLines(codec, lines[1..]));
        BlockIsItsLines(codec, turn.state, lines[1..]);
      }
    }
  }

  lemma {:induction false} BlocksAreTheirLines(codec: Codec, st: OpenAiState, blocks: seq<string>, rest: string)
    ensures var turn := ApplyAll(codec, st, StreamLines(codec, blocks));
            HandleAll(OpenAiHandler(codec), st, blocks, rest) == Parsed(turn.state, turn.events, turn.calls, rest)
    decreases |blocks|
  {
    hide ApplyAll, ApplyLines, Lines, BlockLines;
    if blocks == [] {
      ApplyAllCons(codec, st, Skip, []);
    } else {
      var lines := Lines(blocks[0]);
      BlockIsItsLines(codec, st, lines);
      ApplyAllConcat(codec, st, BlockLines(codec, lines), StreamLines(codec, blocks[1..]));
      BlocksAreTheirLines(codec, ApplyLines(codec, st, lines).state, blocks[1..], rest);
    }
  }

  /** How many blocks of a stream a read of these chunks handles. */
  function BlocksRead(chunks: seq<string>): (n: nat)
    ensures n <= |Blocks(Concat(chunks))|
  {
    Taken(OpenAiStopsAt(), chunks)
  }

  /** The lines a read of these chunks handles. */
  function LinesRead(codec: Codec, chunks: seq<string>): seq<Line> {
    StreamLines(codec, Blocks(Concat(chunks))[..BlocksRead(chunks)])
  }

  /**
   * A stream read, whatever the chunks, applies the lines of the blocks it handles and leaves
   * exactly what is behind them; these are all blocks unless a `[DONE]` precedes the last.
   */
  lemma StreamReadsLines(codec: Codec, st: OpenAiState, chunks: seq<string>)
    ensures var stream, n := Concat(chunks), BlocksRead(chunks);
            && (!DoneBeforeLastBlock(stream) ==> n == |Blocks(stream)|)
            && var turn := ApplyAll(codec, st, LinesRead(codec, chunks));
               OpenAiFeedAll(codec, st, chunks) == Parsed(turn.state, turn.events, turn.calls, DropBlocks(stream, n))
  {
    hide Blocks, DropBlocks, FeedAll, HandleAll, ApplyAll, StreamLines, OpenAiStops;
    var stream := Concat(chunks);
    var n := BlocksRead(chunks);
    FeedTakes(OpenAiHandler(codec), OpenAiStopsAt(), st, chunks);
    if !DoneBeforeLastBlock(stream) {
      AllTaken(OpenAiStopsAt(), chunks);
    }
    BlocksAreTheirLines(codec, st, Blocks(stream)[..n], DropBlocks(stream, n));
  }

  // ----- what a stream says -----

  function ContentOf(line: Line): string {
    if line.Choice? then line.content else ""
  }

  function ReasoningOf(line: Line): string {
    if line.Choice? then line.reasoning else ""
  }

  /** A line without its reasoning. */
  function Quiet(line: Line): Line {
    if line.Choice? then line.(reasoning := "") else line
  }

  function QuietAll(lines: seq<Line>): (r: seq<Line>)
    ensures |r| == |lines|
  {
    if lines == [] then [] else [Quiet(lines[0])] + QuietAll(lines[1..])
  }

  /** Each line's reasoning, then the line's part. */
  function Weave(lines: seq<Line>, parts: seq<seq<StreamEvent>>): seq<StreamEvent>
    requires |lines| == |parts|
  {
    if lines == [] then [] else Emit(true, ReasoningOf(lines[0])) + parts[0] + Weave(lines[1..], parts[1..])
  }

  lemma QuietLine(codec: Codec, st: OpenAiState, line: Line)
    ensures var turn, quiet := ApplyLine(codec, st, line), ApplyLine(codec, st, Quiet(line));
            && turn.state == quiet.state && turn.calls == quiet.calls
            && turn.events == Emit(true, ReasoningOf(line)) + quiet.events
  {
    hide FeedContent, AbsorbAll, Finish;
    if line.Choice? {
      var fed := FeedContent(st.think, line.content).events;
      var next := OpenAiState(AbsorbAll(codec, st.slots, line.fragments), FeedContent(st.think, line.content).state);
      var end := Finish(codec, next).events;
      assert [] + fed == fed;
      assert Emit(true, line.reasoning) + fed + end == Emit(true, line.reasoning) + (fed + end);
    }
  }

  /** Reasoning goes out as it comes, line by line, and changes nothing else the stream does. */
  lemma {:induction false} ReasoningTravelsApart(codec: Codec, st: OpenAiState, lines: seq<Line>)
    returns (parts: seq<seq<StreamEvent>>)
    ensures |parts| == |lines|
    ensures var turn, quiet := ApplyAll(codec, st, lines), ApplyAll(codec, st, QuietAll(lines));
            && turn.state == quiet.state && turn.calls == quiet.calls
            && quiet.events == Flattened(parts)
            && turn.events == Weave(lines, parts)
    decreases |lines|
  {
    hide ApplyLine, Quiet;
    if lines == [] {
      parts := [];
    } else {
      var quiet := ApplyLine(codec, st, Quiet(lines[0]));
      QuietLine(codec, st, lines[0]);
      var rest := ReasoningTravelsApart(codec, quiet.state, lines[1..]);
      parts := [quiet.events] + rest;
      assert parts[1..] == rest;
      ApplyAllCons(codec, st, Quiet(lines[0]), QuietAll(lines[1..]));
    }
  }

  /** The contents between finishing choices, in order; `open` came before `lines`. */
  function Spans(open: string, lines: seq<Line>): (r: seq<string>)
    ensures r != []
    decreases |lines|
  {
    if lines == [] then [open]
    else
      var more := open + ContentOf(lines[0]);
      if lines[0].Choice? && lines[0].finish then [more] + Spans("", lines[1..]) else Spans(more, lines[1..])
  }

  datatype Speech = Speech(cs: seq<(bool, char)>, state: ThinkSplitter.State)

  /** What spans of content say, one splitter run per span, each finished but the last. */
  function SpansSaid(st: ThinkSplitter.State, spans: seq<string>): Speech
    requires spans != []
    decreases |spans|
  {
    var fed := ThinkSplitter.Feed(st, spans[0]);
    if |spans| == 1 then Speech(ThinkSplitter.Chars(fed.events), fed.state)
    else
      var rest := SpansSaid(ThinkSplitter.State(fed.state.thinking, ""), spans[1..]);
      Speech(ThinkSplitter.Chars(fed.events) + ThinkSplitter.Tag(fed.state.thinking, fed.state.pending) + rest.cs,
             rest.state)
  }

  /** The content of one line joins the open span; a finishing choice ends it and sends its tail. */
  lemma LineSays(codec: Codec, st: OpenAiState, think: ThinkSplitter.State, open: string, line: Line)
    requires ThinkSplitter.Resting(think) && st.think == ThinkSplitter.Feed(think, open).state
    ensures var turn, more := ApplyLine(codec, st, Quiet(line)), open + ContentOf(line);
            var first, fed := ThinkSplitter.Feed(think, open), ThinkSplitter.Feed(think, more);
            && AllDeltas(turn.events)
            && ThinkSplitter.Resting(fed.state)
            && var said := ThinkSplitter.Chars(first.events) + ThinkSplitter.Chars(turn.events);
               if line.Choice? && line.finish then
                 && turn.state.think == ThinkSplitter.State(fed.state.thinking, "")
                 && said == ThinkSplitter.Chars(fed.events) + ThinkSplitter.Tag(fed.state.thinking, fed.state.pending)
               else turn.state.think == fed.state && said == ThinkSplitter.Chars(fed.events)
  {
    hide ThinkSplitter.Split, ThinkSplitter.Chars, ThinkSplitter.Tag, AbsorbAll, Flush;
    var content := ContentOf(line);
    ThinkSplitter.SplitRests(think.thinking, think.pending + open);
    ThinkSplitter.SplitRests(think.thinking, think.pending + (open + content));
    ThinkSplitter.RestingIsFixed(st.think);
    ThinkSplitter.SplitResumes(think.thinking, think.pending + open, content);
    assert (think.pending + open) + content == think.pending + (open + content);
    var fed := FeedContent(st.think, content);
    assert fed == ThinkSplitter.Feed(st.think, content);
    ThinkSplitter.CharsConcat(fed.events, ThinkSplitter.Flush(fed.state));
    ThinkSplitter.CharsEmit(fed.state.thinking, fed.state.pending);
    NothingSaid();
    assert [] + fed.events == fed.events;
  }

  lemma NothingSaid()
    ensures ThinkSplitter.Chars([]) == []
  {
  }

  /**
   * Content says what its spans say, however it is spread over lines; a span begins with what was
   * open before the lines.
   */
  lemma {:induction false} ContentAcrossLines(codec: Codec, st: OpenAiState, think: ThinkSplitter.State, open: string,
      lines: seq<Line>)
    requires ThinkSplitter.Resting(think) && st.think == ThinkSplitter.Feed(think, open).state
    ensures var turn, said := ApplyAll(codec, st, QuietAll(lines)), SpansSaid(think, Spans(open, lines));
            && AllDeltas(turn.events)
            && turn.state.think == said.state
            && ThinkSplitter.Chars(ThinkSplitter.Feed(think, open).events) + ThinkSplitter.Chars(turn.events) == said.cs
    decreases |lines|
  {
    hide ThinkSplitter.Feed, ThinkSplitter.Chars, ThinkSplitter.Tag, ThinkSplitter.Resting;
    hide ApplyLine, ApplyAll, SpansSaid, Spans, ContentOf, Quiet;
    if lines == [] {
      ApplyAllCons(codec, st, Skip, []);
      NothingSaid();
      OneSpanSaid(think, open);
      SpansAre(open, Skip, []);
    } else {
      var line, rest := lines[0], lines[1..];
      var turn, more := ApplyLine(codec, st, Quiet(line)), open + ContentOf(line);
      assert lines == [line] + rest;
      SpansAre(open, line, rest);
      LineSays(codec, st, think, open, line);
      ApplyAllCons(codec, st, Quiet(line), QuietAll(rest));
      if line.Choice? && line.finish {
        var mode := ThinkSplitter.Feed(think, more).state.thinking;
        NothingPending(mode);
        NothingSaid();
        ContentAcrossLines(codec, turn.state, ThinkSplitter.State(mode, ""), "", rest);
        FinishedSpanSaid(think, more, Spans("", rest));
      } else {
        ContentAcrossLines(codec, turn.state, think, more, rest);
      }
      ThinkSplitter.CharsConcat(turn.events, ApplyAll(codec, turn.state, QuietAll(rest)).events);
    }
  }

  lemma SpansAre(open: string, line: Line, rest: seq<Line>)
    ensures Spans(open, []) == [open]
    ensures Spans(open, [line] + rest)
            == if line.Choice? && line.finish then [open + ContentOf(line)] + Spans("", rest)
               else Spans(open + ContentOf(line), rest)
  {
    assert ([line] + rest)[1..] == rest;
  }

  lemma OneSpanSaid(st: ThinkSplitter.State, span: string)
    ensures var fed := ThinkSplitter.Feed(st, span);
            SpansSaid(st, [span]) == Speech(ThinkSplitter.Chars(fed.events), fed.state)
  {
  }

  lemma FinishedSpanSaid(st: ThinkSplitter.State, span: string, rest: seq<string>)
    requires rest != []
    ensures var fed := ThinkSplitter.Feed(st, span);
            var later := SpansSaid(ThinkSplitter.State(fed.state.thinking, ""), rest);
            SpansSaid(st, [span] + rest)
            == Speech(ThinkSplitter.Chars(fed.events) + ThinkSplitter.Tag(fed.state.thinking, fed.state.pending) + later.cs,
                      later.state)
  {
    hide ThinkSplitter.Feed, ThinkSplitter.Chars, ThinkSplitter.Tag;
    assert ([span] + rest)[1..] == rest;
  }

  lemma NothingPending(thinking: bool)
    ensures ThinkSplitter.Resting(ThinkSplitter.State(thinking, ""))
    ensures ThinkSplitter.Feed(ThinkSplitter.State(thinking, ""), "")
            == ThinkSplitter.Fed([], ThinkSplitter.State(thinking, ""))
  {
    ThinkSplitter.RestingIsFixed(ThinkSplitter.State(thinking, ""));
  }

  /** All that spans of content mean: the segments of each span, its tail included. */
  function Everything(thinking: bool, spans: seq<string>): seq<(bool, char)>
    decreases |spans|
  {
    if spans == [] then []
    else
      ThinkSplitter.Chars(ThinkSplitter.Deltas(thinking, ThinkSplitter.Whole(thinking, spans[0])))
      + Everything(ThinkSplitter.EndMode(thinking, spans[0]), spans[1..])
  }

  /** The tail of the last span: what follows the last finishing choice and could still start a marker. */
  function OpenTail(thinking: bool, spans: seq<string>): string
    requires spans != []
    decreases |spans|
  {
    if |spans| == 1 then ThinkSplitter.TailOf(thinking, spans[0])
    else OpenTail(ThinkSplitter.EndMode(thinking, spans[0]), spans[1..])
  }

  /** The input is segments and markers alone. */
  ghost predicate ReadsWithoutTail(thinking: bool, input: string) {
    exists segments: seq<string> :: ThinkSplitter.Reading(thinking, input, segments, "")
  }

  /** Said without a search: an input leaves no tail exactly when it has a reading without one. */
  lemma NoTailExactlyWhen(thinking: bool, input: string)
    ensures ThinkSplitter.TailOf(thinking, input) == "" <==> ReadsWithoutTail(thinking, input)
  {
    hide ThinkSplitter.Split, ThinkSplitter.Segments, ThinkSplitter.Reading;
    ThinkSplitter.EveryInputHasReading(thinking, input);
    if ReadsWithoutTail(thinking, input) {
      var segments: seq<string> :| ThinkSplitter.Reading(thinking, input, segments, "");
      ThinkSplitter.ReadingUnique(thinking, input, segments, "");
    }
  }

  lemma {:induction false} SpansSayAllButTail(thinking: bool, spans: seq<string>)
    requires spans != []
    ensures var said := SpansSaid(ThinkSplitter.State(thinking, ""), spans);
            && said.state.pending == OpenTail(thinking, spans)
            && said.cs + ThinkSplitter.Tag(said.state.thinking, OpenTail(thinking, spans)) == Everything(thinking, spans)
    decreases |spans|
  {
    hide ThinkSplitter.Split, ThinkSplitter.Chars, ThinkSplitter.Tag, ThinkSplitter.Whole, ThinkSplitter.EndMode, ThinkSplitter.TailOf;
    assert "" + spans[0] == spans[0];
    ThinkSplitter.SpanMeans(thinking, spans[0]);
    if |spans| == 1 {
      assert Everything(ThinkSplitter.EndMode(thinking, spans[0]), spans[1..]) == [];
    } else {
      SpansSayAllButTail(ThinkSplitter.EndMode(thinking, spans[0]), spans[1..]);
    }
  }

  /**
   * What the lines of a stream say, reasoning apart: everything their content means but the open
   * tail. So nothing is lost exactly when the content behind the last finishing choice leaves no
   * tail that could still become a marker.
   */
  lemma SaysEverythingExactlyWhen(codec: Codec, lines: seq<Line>)
    ensures var quiet, spans := ApplyAll(codec, OPENAI_START, QuietAll(lines)), Spans("", lines);
            && AllDeltas(quiet.events)
            && quiet.state.think.pending == OpenTail(false, spans)
            && ThinkSplitter.Chars(quiet.events) + ThinkSplitter.Tag(quiet.state.think.thinking, OpenTail(false, spans))
               == Everything(false, spans)
            && (ThinkSplitter.Chars(quiet.events) == Everything(false, spans) <==> OpenTail(false, spans) == "")
  {
    hide ApplyAll, Spans, SpansSaid, Everything, OpenTail, ThinkSplitter.Chars, ThinkSplitter.Feed;
    var start, spans := ThinkSplitter.State(false, ""), Spans("", lines);
    NothingPending(false);
    NothingSaid();
    ContentAcrossLines(codec, OPENAI_START, start, "", lines);
    SpansSayAllButTail(false, spans);
    var quiet := ApplyAll(codec, OPENAI_START, QuietAll(lines));
    assert SpansSaid(start, spans).cs == ThinkSplitter.Chars(quiet.events);
  }

  /**
   * Nothing is lost once a finishing choice has come and no content follows it, whatever came before
   * and whatever else follows, `[DONE]` and repeated finishing choices included.
   */
  lemma {:induction false} FinishedSaysEverything(thinking: bool, open: string, lines: seq<Line>, more: seq<Line>)
    requires lines != [] && var last := lines[|lines| - 1]; last.Choice? && last.finish
    requires forall i :: 0 <= i < |more| ==> ContentOf(more[i]) == ""
    ensures OpenTail(thinking, Spans(open, lines + more)) == ""
    decreases |lines|
  {
    hide ThinkSplitter.TailOf, ThinkSplitter.EndMode, ContentOf;
    var line, rest := lines[0], lines[1..];
    var joined := open + ContentOf(line);
    assert lines + more == [line] + (rest + more);
    SpansAre(open, line, rest + more);
    if line.Choice? && line.finish {
      var later := Spans("", rest + more);
      assert ([joined] + later)[1..] == later;
      if rest == [] {
        assert rest + more == more;
        NoContentNoTail(ThinkSplitter.EndMode(thinking, joined), more);
      } else {
        FinishedSaysEverything(ThinkSplitter.EndMode(thinking, joined), "", rest, more);
      }
    } else {
      FinishedSaysEverything(thinking, joined, rest, more);
    }
  }

  lemma {:induction false} NoContentNoTail(thinking: bool, lines: seq<Line>)
    requires forall i :: 0 <= i < |lines| ==> ContentOf(lines[i]) == ""
    ensures OpenTail(thinking, Spans("", lines)) == ""
    decreases |lines|
  {
    hide ThinkSplitter.TailOf, ThinkSplitter.EndMode, ContentOf;
    ThinkSplitter.NoTailInNothing(thinking);
    if lines != [] {
      var line, rest := lines[0], lines[1..];
      assert "" + ContentOf(line) == "";
      if line.Choice? && line.finish {
        assert ([""] + Spans("", rest))[1..] == Spans("", rest);
        NoContentNoTail(ThinkSplitter.EndMode(thinking, ""), rest);
      } else {
        NoContentNoTail(thinking, rest);
      }
    }
  }

  /** Text the code drops: a `<` that no finishing choice follows is never sent, `[DONE]` or not. */
  lemma DoneDropsTail(codec: Codec)
    ensures var turn := ApplyAll(codec, OPENAI_START, [Choice("", "<", [], false), Done]);
            turn.events == [] && turn.state.think == ThinkSplitter.State(false, "<")
  {
    hide ThinkSplitter.Split;
    var first := Choice("", "<", [], false);
    var turn := ApplyLine(codec, OPENAI_START, first);
    ThinkSplitter.RestingIsFixed(ThinkSplitter.State(false, "<"));
    assert "" + "<" == "<" + "" == "<";
    assert turn.events == [] && turn.state.think == ThinkSplitter.State(false, "<");
    DoneLine(codec, turn.state);
    ApplyAllCons(codec, OPENAI_START, first, [Done]);
    ApplyAllCons(codec, turn.state, Done, []);
    assert [first] + [Done] == [first, Done] && [Done] + [] == [Done];
  }

  predicate KnownReason(reason: string) {
    reason == "tool_calls" || reason == "stop" || reason == "length"
  }

  /**
   * The finish reason decides the flush: with one of the three known reasons a line leaves no slots
   * and no pending text; with any other it makes no calls, its slots hold all fragments, and its
   * tail stays held back.
   */
  lemma ReasonDecidesFlush(codec: Codec, st: OpenAiState, raw: string, j: Json, choice: Json, reason: string)
    requires StartsWith(Trim(raw), DATA) && !IsDone(raw) && codec.parse(Trim(raw)[|DATA|..]) == Some(j)
    requires FirstChoice(j) == Some(choice) && choice.GetStr("finish_reason") == Some(reason)
    ensures var line := ReadLine(codec, raw);
            && line.Choice?
            && var turn := ApplyLine(codec, st, line);
               var slots, think := AbsorbAll(codec, st.slots, line.fragments), FeedContent(st.think, line.content).state;
               if KnownReason(reason) then
                 && turn.calls == Flush(codec, slots.tools)
                 && turn.state == OpenAiState(Slots([], slots.drawn), ThinkSplitter.State(think.thinking, ""))
               else turn.calls == [] && turn.state == OpenAiState(slots, think)
  {
    hide AbsorbAll, FeedContent, Flush, Trim;
  }

  /** A stream in which `[DONE]` comes early, so that what is read depends on the chunks. */
  lemma EarlyDone()
    ensures DoneBeforeLastBlock("data: [DONE]\n\nx\n\n")
  {
    hide Trim, Find;
    var s, rest := "data: [DONE]\n\nx\n\n", "x\n\n";
    assert forall k :: 0 <= k < 12 ==> s[k] != '\n';
    CutAt(s, 12);
    assert s[..12] == DONE_LINE && s[14..] == rest;
    assert rest[0] != '\n';
    CutAt(rest, 1);
    FirstBlockCut(s, 12);
    FirstBlockCut(rest, 1);
    DoneLineStops();
    assert Blocks(s)[0] == DONE_LINE;
  }

  lemma CutAt(s: string, pos: nat)
    requires pos + 2 <= |s| && s[pos..pos + 2] == "\n\n"
    requires forall k :: 0 <= k < pos ==> s[k] != '\n'
    ensures Find(s, "\n\n") == Some(pos)
  {
    forall j | j < pos
      ensures !OccursAt(s, "\n\n", j)
    {
      if 0 <= j {
        assert s[j..j + 2][0] == s[j];
      }
    }
    FindIs(s, "\n\n", pos);
  }

  lemma DoneLineStops()
    ensures OpenAiStops(DONE_LINE)
  {
    forall j
      ensures !OccursAt(DONE_LINE, "\n", j)
    {
      if 0 <= j < |DONE_LINE| {
        assert DONE_LINE[j..j + 1][0] == DONE_LINE[j];
      }
    }
    assert Lines(DONE_LINE) == [DONE_LINE];
    assert Trim(DONE_LINE) == DONE_LINE;
    assert IsDone(Lines(DONE_LINE)[0]);
  }

  /** Text that no blank line follows is never read. */
  lemma UnclosedIsDropped(codec: Codec)
    ensures OpenAiFeedAll(codec, OPENAI_START, ["data: x"]) == Parsed(OPENAI_START, [], [], "data: x")
  {
    hide ApplyLines;
    var s := "data: x";
    forall j
      ensures !OccursAt(s, "\n\n", j)
    {
      if 0 <= j && j + 2 <= |s| {
        assert s[j..j + 2][0] == s[j];
      }
    }
    ParseNothing(OpenAiHandler(codec), OpenAiStopsAt(), OPENAI_START, s);
    assert [s][1..] == [] && "" + s == s;
  }

  /**
   * Closing a body whose complete blocks have all been read applies exactly the lines of the text
   * behind its last blank line, and changes what is sent, called or held exactly when they do.
   */
  lemma UnclosedLostExactlyWhen(codec: Codec, chunks: seq<string>)
    requires BlocksRead(chunks) == |Blocks(Concat(chunks))|
    ensures var fed, closed := OpenAiFeedAll(codec, OPENAI_START, chunks), OpenAiFeedAll(codec, OPENAI_START, chunks + ["\n\n"]);
            var turn := ApplyAll(codec, fed.state, BlockLines(codec, Lines(Unclosed(Concat(chunks)))));
            && closed.state == turn.state && closed.events == fed.events + turn.events && closed.calls == fed.calls + turn.calls
            && (closed.state == fed.state && closed.events == fed.events && closed.calls == fed.calls
                <==> turn == Turn(fed.state, [], []))
  {
    hide FeedAll, Blocks, Unclosed, ApplyAll, ApplyLines, Lines, BlockLines, Taken;
    ClosingMattersExactlyWhen(OpenAiHandler(codec), OpenAiStopsAt(), OPENAI_START, chunks);
    BlockIsItsLines(codec, OpenAiFeedAll(codec, OPENAI_START, chunks).state, Lines(Unclosed(Concat(chunks))));
  }

  /**
   * What a whole stream says, whatever the chunks: the reasoning of its lines as it comes, woven
   * with everything their content means but the open tail.
   */
  lemma StreamSays(codec: Codec, chunks: seq<string>) returns (parts: seq<seq<StreamEvent>>)
    ensures var lines := LinesRead(codec, chunks);
            var fed, spans := OpenAiFeedAll(codec, OPENAI_START, chunks), Spans("", lines);
            && |parts| == |lines| && fed.events == Weave(lines, parts)
            && AllDeltas(Flattened(parts))
            && fed.state.think.pending == OpenTail(false, spans)
            && ThinkSplitter.Chars(Flattened(parts)) + ThinkSplitter.Tag(fed.state.think.thinking, OpenTail(false, spans))
               == Everything(false, spans)
            && (ThinkSplitter.Chars(Flattened(parts)) == Everything(false, spans) <==> OpenTail(false, spans) == "")
  {
    hide ApplyAll, Spans, Everything, OpenTail, ThinkSplitter.Chars, Blocks, DropBlocks, OpenAiFeedAll, Weave, Flattened;
    hide LinesRead, DoneBeforeLastBlock, QuietAll, Concat, BlocksRead;
    StreamReadsLines(codec, OPENAI_START, chunks);
    var lines := LinesRead(codec, chunks);
    parts := ReasoningTravelsApart(codec, OPENAI_START, lines);
    SaysEverythingExactlyWhen(codec, lines);
  }

  // ----- the tool calls of a stream -----

  /** What a line tells the tool-call slots. */
  function SignalsOf(line: Line): seq<Signal> {
    match line
    case Skip => []
    case Done => [FlushPoint]
    case Choice(_, _, fragments, finish) => Pieces(fragments) + if finish then [FlushPoint] else []
  }

  function Signals(lines: seq<Line>): seq<Signal> {
    if lines == [] then [] else SignalsOf(lines[0]) + Signals(lines[1..])
  }

  /** The tool calls of a stream are the assembled ones, whatever text travels between them. */
  lemma {:induction false} CallsAreAssembled(codec: Codec, st: OpenAiState, lines: seq<Line>)
    ensures var turn := ApplyAll(codec, st, lines);
            Assemble(codec, st.slots, Signals(lines)) == Assembled(turn.calls, turn.state.slots)
    decreases |lines|
  {
    hide Absorb, Flush;
    if lines != [] {
      var line, later := lines[0], Signals(lines[1..]);
      var turn := ApplyLine(codec, st, line);
      CallsAreAssembled(codec, turn.state, lines[1..]);
      LineIsAssembled(codec, st, line, later);
    }
  }

  /** What a line does to the tool-call slots. */
  lemma LineSlots(codec: Codec, st: OpenAiState, line: Line)
    ensures var turn := ApplyLine(codec, st, line);
            var gathered := if line.Choice? then AbsorbAll(codec, st.slots, line.fragments) else st.slots;
            if line.Done? || (line.Choice? && line.finish) then
              turn.calls == Flush(codec, gathered.tools) && turn.state.slots == Slots([], gathered.drawn)
            else turn.calls == [] && turn.state.slots == gathered
  {
    hide AbsorbAll, Flush, FeedContent;
  }

  lemma {:induction false} LineIsAssembled(codec: Codec, st: OpenAiState, line: Line, later: seq<Signal>)
    ensures var turn := ApplyLine(codec, st, line);
            var rest := Assemble(codec, turn.state.slots, later);
            Assemble(codec, st.slots, SignalsOf(line) + later) == Assembled(turn.calls + rest.calls, rest.slots)
  {
    hide AbsorbAll, Flush, ApplyLine, Assemble, Pieces;
    LineSlots(codec, st, line);
    match line
    case Skip =>
      assert [] + later == later;
      assert [] + Assemble(codec, st.slots, later).calls == Assemble(codec, st.slots, later).calls;
    case Done => FlushAssembled(codec, st.slots, later);
    case Choice(_, _, fragments, finish) =>
      var gathered := AbsorbAll(codec, st.slots, fragments);
      if finish {
        assert SignalsOf(line) + later == Pieces(fragments) + ([FlushPoint] + later);
        AssemblePieces(codec, st.slots, fragments, [FlushPoint] + later);
        FlushAssembled(codec, gathered, later);
      } else {
        assert SignalsOf(line) + later == Pieces(fragments) + later;
        AssemblePieces(codec, st.slots, fragments, later);
        assert [] + Assemble(codec, gathered, later).calls == Assemble(codec, gathered, later).calls;
      }
  }

  lemma FlushAssembled(codec: Codec, slots: Slots, later: seq<Signal>)
    ensures var rest := Assemble(codec, Slots([], slots.drawn), later);
            Assemble(codec, slots, [FlushPoint] + later) == Assembled(Flush(codec, slots.tools) + rest.calls, rest.slots)
  {
    hide Flush;
    assert ([FlushPoint] + later)[1..] == later;
  }

  /**
   * The tool calls of a whole stream, whatever the chunks: flush by flush, one call for each index
   * that got a name since the flush before, in index order, its arguments read from the in-order
   * concatenation of the pieces for that index.
   */
  lemma StreamCalls(codec: Codec, chunks: seq<string>) returns (parts: seq<seq<ParsedToolCall>>)
    ensures var batches := Batches([], Signals(LinesRead(codec, chunks)));
            && OpenAiFeedAll(codec, OPENAI_START, chunks).calls == Flattened(parts)
            && |parts| == |batches|
            && forall b :: 0 <= b < |parts| ==> BatchGives(codec, batches[b], parts[b])
  {
    hide ApplyAll, Blocks, DropBlocks, OpenAiFeedAll, LinesRead, BlocksRead, DoneBeforeLastBlock, Signals, Assemble, BatchGives;
    hide Batches, Concat, Flattened;
    StreamReadsLines(codec, OPENAI_START, chunks);
    var lines := LinesRead(codec, chunks);
    CallsAreAssembled(codec, OPENAI_START, lines);
    NothingAbsorbed(codec, Slots([], 0));
    parts := AssembledByBatch(codec, 0, [], Signals(lines));
  }
}

/**
 * The other end of an OpenAI-compatible stream: how a provider writes its chunks down, said without
 * any reader, and that the parser reads back what was written, whatever the chunks of the body.
 */
module OpenAiWire {
  import opened Text
  import opened Json
  import opened StreamEvents
  import opened SseFraming
  import opened ToolAssembly
  import opened StreamParser

  /** What one chunk of a completion says; `None` is a field that is left out. */
  datatype Chunk = Chunk(
    reasoning: Option<string>,
    content: Option<string>,
    pieces: seq<Fragment>,
    finishReason: Option<string>)

  // ----- writing -----

  function WrittenPiece(f: Fragment, other: map<string, Json>): Json {
    var func := Obj(With(With(other, "name", OptStr(f.name)), "arguments", Some(Str(f.arguments))));
    Obj(With(With(With(other, "index", Some(Int(f.index))), "id", OptStr(f.id)), "function", Some(func)))
  }

  function WrittenPieces(fs: seq<Fragment>, other: map<string, Json>): (r: seq<Json>)
    ensures |r| == |fs|
    ensures forall i :: 0 <= i < |r| ==> r[i] == WrittenPiece(fs[i], other)
  {
    seq(|fs|, i requires 0 <= i < |fs| => WrittenPiece(fs[i], other))
  }

  function WrittenDelta(c: Chunk, other: map<string, Json>): Json {
    Obj(With(With(With(other, "reasoning_content", OptStr(c.reasoning)), "content", OptStr(c.content)),
             "tool_calls", if c.pieces == [] then None else Some(Arr(WrittenPieces(c.pieces, other)))))
  }

  function WrittenChoice(c: Chunk, other: map<string, Json>): Json {
    Obj(With(With(other, "delta", Some(WrittenDelta(c, other))), "finish_reason", OptStr(c.finishReason)))
  }

  /** A chunk as JSON: its choice comes first, `more` are others; at every level there are other fields. */
  function Written(c: Chunk, other: map<string, Json>, more: seq<Json>): Json {
    Obj(With(other, "choices", Some(Arr([WrittenChoice(c, other)] + more))))
  }

  /** Indices that fit into 64 bits, which is all a JSON reader takes as an index. */
  predicate IndicesFit(c: Chunk) {
    forall i :: 0 <= i < |c.pieces| ==> c.pieces[i].index < 0x1_0000_0000_0000_0000
  }

  // ----- reading back -----

  /** The line a chunk should be read as. */
  function LineOf(c: Chunk): Line {
    Choice(if c.reasoning.Some? then c.reasoning.value else "", if c.content.Some? then c.content.value else "",
           c.pieces, c.finishReason.Some? && KnownReason(c.finishReason.value))
  }

  lemma PieceReadsBack(f: Fragment, other: map<string, Json>)
    requires f.index < 0x1_0000_0000_0000_0000
    ensures ReadFragment(WrittenPiece(f, other)) == f
  {
  }

  lemma DeltaReadsBack(c: Chunk, other: map<string, Json>)
    requires IndicesFit(c)
    ensures var delta := WrittenDelta(c, other);
            && delta.GetStr("reasoning_content") == c.reasoning && delta.GetStr("content") == c.content
            && ReadFragments(FragmentItems(delta)) == c.pieces
  {
    hide WrittenPiece, ReadFragment;
    var delta := WrittenDelta(c, other);
    forall i | 0 <= i < |c.pieces|
      ensures ReadFragment(WrittenPiece(c.pieces[i], other)) == c.pieces[i]
    {
      PieceReadsBack(c.pieces[i], other);
    }
    assert FragmentItems(delta) == WrittenPieces(c.pieces, other);
  }

  lemma ChoiceReadsBack(c: Chunk, other: map<string, Json>, more: seq<Json>)
    ensures FirstChoice(Written(c, other, more)) == Some(WrittenChoice(c, other))
    ensures DeltaOf(WrittenChoice(c, other)) == WrittenDelta(c, other)
    ensures Finishes(WrittenChoice(c, other)) <==> c.finishReason.Some? && KnownReason(c.finishReason.value)
  {
    hide WrittenDelta;
  }

  /** Every chunk is read back as it was written, whatever other fields and choices go with it. */
  lemma ChunkReadsBack(codec: Codec, raw: string, text: string, c: Chunk, other: map<string, Json>, more: seq<Json>)
    requires IndicesFit(c) && codec.parse(text) == Some(Written(c, other, more))
    requires Trim(raw) == "data: " + text && text != "[DONE]"
    ensures ReadLine(codec, raw) == LineOf(c)
  {
    hide Trim, WrittenDelta, WrittenChoice, Written, DeltaOf, FirstChoice, Finishes, ReadFragments, FragmentItems;
    DeltaReadsBack(c, other);
    ChoiceReadsBack(c, other, more);
    assert ("data: " + text)[6..] == text && (DONE_LINE)[6..] == "[DONE]";
  }

  /**
   * What is read of any piece at all, said on its fields: the index is its 64-bit number or else 0,
   * and id, name and arguments are its strings or else missing, missing and empty.
   */
  lemma PieceExactly(j: Json)
    ensures var f := ReadFragment(j);
            && (forall n: nat :: n < 0x1_0000_0000_0000_0000 ==> (Holds(j, "index", Int(n)) ==> f.index == n))
            && ((forall n: nat :: n < 0x1_0000_0000_0000_0000 ==> !Holds(j, "index", Int(n))) ==> f.index == 0)
            && (forall s :: f.id == Some(s) <==> Holds(j, "id", Str(s)))
            && (forall s :: f.name == Some(s) <==> HoldsInner(j, "function", "name", Str(s)))
            && (forall s :: HoldsInner(j, "function", "arguments", Str(s)) ==> f.arguments == s)
            && ((forall s :: !HoldsInner(j, "function", "arguments", Str(s))) ==> f.arguments == "")
  {
    var f := ReadFragment(j);
    if j.Get("index").Some? && j.Get("index").value.AsU64().Some? {
      assert Holds(j, "index", Int(f.index));
    }
    if f.id.Some? {
      assert Holds(j, "id", Str(f.id.value));
    }
    if j.Get("function").Some? && j.Get("function").value.GetStr("arguments").Some? {
      assert HoldsInner(j, "function", "arguments", Str(f.arguments));
    }
  }

  /** White space around a line, a carriage return before its end included, never changes how it is read. */
  lemma PaddingNeverMatters(codec: Codec, a: string, raw: string, b: string)
    requires Blank(a) && Blank(b)
    ensures ReadLine(codec, a + raw + b) == ReadLine(codec, raw)
  {
    hide Trim;
    TrimPadded(a, raw, b);
  }

  // ----- whole streams -----

  /** A chunk and the JSON text it was written as. */
  datatype Sent = Sent(chunk: Chunk, text: string)

  ghost predicate Spells(codec: Codec, s: Sent, other: map<string, Json>, more: seq<Json>) {
    && OneLine(s.text) && s.text != "[DONE]"
    && codec.parse(s.text) == Some(Written(s.chunk, other, more))
    && IndicesFit(s.chunk)
  }

  /** The server-sent events of a stream, one block each; `done` says whether it is closed by `[DONE]`. */
  function SentBlocks(sent: seq<Sent>, done: bool): seq<string> {
    if sent == [] then (if done then ["data: [DONE]"] else [])
    else ["data: " + sent[0].text] + SentBlocks(sent[1..], done)
  }

  function SentLines(sent: seq<Sent>, done: bool): seq<Line> {
    if sent == [] then (if done then [Done] else []) else [LineOf(sent[0].chunk)] + SentLines(sent[1..], done)
  }

  lemma DataLineIsOneLine(text: string)
    requires OneLine(text)
    ensures var block := "data: " + text;
            Trim(block) == block && Lines(block) == [block] && Sealed(block)
  {
    var block := "data: " + text;
    assert block[|block| - 1] == text[|text| - 1] && block[0] == 'd';
    forall c | c in block
      ensures c != '\n'
    {
    }
    NoLineFeed(block);
    assert IsWhitespace('\n');
  }

  lemma SentBlockRead(codec: Codec, s: Sent, other: map<string, Json>, more: seq<Json>)
    requires Spells(codec, s, other, more)
    ensures var block := "data: " + s.text;
            BlockLines(codec, Lines(block)) == [LineOf(s.chunk)] && Sealed(block) && !OpenAiStops(block)
  {
    hide Trim, Lines, OneLine, ReadLine, Written, Sealed;
    var block := "data: " + s.text;
    DataLineIsOneLine(s.text);
    ChunkReadsBack(codec, block, s.text, s.chunk, other, more);
    assert [block][1..] == [];
    LineDone(codec, block);
  }

  lemma DoneBlockRead(codec: Codec)
    ensures BlockLines(codec, Lines("data: [DONE]")) == [Done] && Sealed("data: [DONE]")
  {
    hide Trim, Lines;
    DataLineIsOneLine("[DONE]");
    assert "data: " + "[DONE]" == "data: [DONE]" == DONE_LINE;
  }

  /** The text of a stream. */
  function StreamText(sent: seq<Sent>, done: bool): string {
    Terminated(SentBlocks(sent, done))
  }

  lemma {:induction false} SentBlocksRead(codec: Codec, sent: seq<Sent>, other: map<string, Json>, more: seq<Json>, done: bool)
    requires forall i :: 0 <= i < |sent| ==> Spells(codec, sent[i], other, more)
    ensures var blocks := SentBlocks(sent, done);
            && (forall i :: 0 <= i < |blocks| ==> Sealed(blocks[i]))
            && (forall i :: 0 <= i < |blocks| - 1 ==> !OpenAiStops(blocks[i]))
            && StreamLines(codec, blocks) == SentLines(sent, done)
  {
    hide Sealed, OpenAiStops, Spells, LineOf, BlockLines, Lines;
    if sent == [] {
      DoneBlockRead(codec);
      assert ["data: [DONE]"][1..] == [];
    } else {
      SentBlockRead(codec, sent[0], other, more);
      SentBlocksRead(codec, sent[1..], other, more, done);
      var later := SentBlocks(sent[1..], done);
      assert SentBlocks(sent, done)[1..] == later;
    }
  }

  /**
   * A stream is read as it was written: whatever the chunks its body comes in, the lines the parser
   * handles are those of the chunks sent, and nothing is left over.
   */
  lemma SentIsRead(codec: Codec, sent: seq<Sent>, other: map<string, Json>, more: seq<Json>, done: bool, chunks: seq<string>)
    requires forall i :: 0 <= i < |sent| ==> Spells(codec, sent[i], other, more)
    requires Concat(chunks) == StreamText(sent, done)
    ensures LinesRead(codec, chunks) == SentLines(sent, done)
    ensures OpenAiFeedAll(codec, OPENAI_START, chunks).rest == ""
  {
    hide Blocks, Leftover, DropBlocks, Terminated, FeedAll, StreamLines, ApplyAll, Spells, OpenAiStops, SentBlocks, SentLines;
    var blocks, stream := SentBlocks(sent, done), Concat(chunks);
    SentBlocksRead(codec, sent, other, more, done);
    TerminatedIsCut(blocks);
    StreamReadsLines(codec, OPENAI_START, chunks);
    assert !DoneBeforeLastBlock(stream);
    assert blocks[..|blocks|] == blocks;
    DroppedBlocks(stream, |blocks|);
  }

  /**
   * The calls of a written stream: batch by batch, one call for each index that got a name, in index
   * order, with the last id, the last name and all arguments written for that index.
   */
  lemma SentCalls(codec: Codec, sent: seq<Sent>, other: map<string, Json>, more: seq<Json>, done: bool, chunks: seq<string>)
    returns (parts: seq<seq<ParsedToolCall>>)
    requires forall i :: 0 <= i < |sent| ==> Spells(codec, sent[i], other, more)
    requires Concat(chunks) == StreamText(sent, done)
    ensures var batches := Batches([], Signals(SentLines(sent, done)));
            && OpenAiFeedAll(codec, OPENAI_START, chunks).calls == Flattened(parts)
            && |parts| == |batches|
            && forall b :: 0 <= b < |parts| ==> BatchGives(codec, batches[b], parts[b])
  {
    hide *;
    SentIsRead(codec, sent, other, more, done, chunks);
    parts := StreamCalls(codec, chunks);
  }

  /** What a written stream says: its reasoning as it was written, and what its content means but the open tail. */
  lemma SentSays(codec: Codec, sent: seq<Sent>, other: map<string, Json>, more: seq<Json>, done: bool, chunks: seq<string>)
    returns (parts: seq<seq<StreamEvent>>)
    requires forall i :: 0 <= i < |sent| ==> Spells(codec, sent[i], other, more)
    requires Concat(chunks) == StreamText(sent, done)
    ensures var lines := SentLines(sent, done);
            var fed, spans := OpenAiFeedAll(codec, OPENAI_START, chunks), Spans("", lines);
            && |parts| == |lines| && fed.events == Weave(lines, parts) && AllDeltas(Flattened(parts))
            && ThinkSplitter.Chars(Flattened(parts)) + ThinkSplitter.Tag(fed.state.think.thinking, OpenTail(false, spans))
               == Everything(false, spans)
            && (ThinkSplitter.Chars(Flattened(parts)) == Everything(false, spans) <==> OpenTail(false, spans) == "")
  {
    hide *;
    SentIsRead(codec, sent, other, more, done, chunks);
    parts := StreamSays(codec, chunks);
  }

  // ----- two calls at once -----

  const CALL_A := Fragment(0, Some("a"), Some("f"), "{}")
  const CALL_B := Fragment(1, Some("b"), Some("g"), "{}")
  const CALLS_END := Chunk(None, None, [], Some("tool_calls"))

  lemma TwoCallsAbsorbed(codec: Codec)
    ensures AbsorbAll(codec, Slots([], 0), [CALL_A, CALL_B])
            == Slots([PartialToolCall("a", "f", "{}"), PartialToolCall("b", "g", "{}")], 0)
  {
    var first := Slots([PartialToolCall("a", "f", "{}")], 0);
    assert "" + "{}" == "{}";
    assert Absorb(codec, Slots([], 0), CALL_A) == first;
    assert Pad(first.tools, 1) == first.tools + [EMPTY_SLOT];
    assert Absorb(codec, first, CALL_B) == Slots([PartialToolCall("a", "f", "{}"), PartialToolCall("b", "g", "{}")], 0);
    var both := Absorb(codec, first, CALL_B);
    assert [CALL_A, CALL_B][1..] == [CALL_B] && [CALL_B][1..] == [];
    assert AbsorbAll(codec, first, [CALL_B]) == AbsorbAll(codec, both, []) == both;
  }

  lemma TwoCallsFlushed(codec: Codec)
    ensures Flush(codec, [PartialToolCall("a", "f", "{}"), PartialToolCall("b", "g", "{}")])
            == [ParsedToolCall("a", "f", codec.ParseOrNull("{}")), ParsedToolCall("b", "g", codec.ParseOrNull("{}"))]
  {
    var a, b := PartialToolCall("a", "f", "{}"), PartialToolCall("b", "g", "{}");
    assert [a, b][1..] == [b] && [b][1..] == [];
    assert Flush(codec, [b]) == [Call(codec, b)] + Flush(codec, []);
    assert Flush(codec, [a, b]) == [Call(codec, a)] + Flush(codec, [b]);
  }

  /** Two calls written in parallel, in one chunk or in two, arrive as two calls. */
  lemma {:induction false} ParallelCallsArrive(codec: Codec, sent: seq<Sent>, other: map<string, Json>, more: seq<Json>, chunks: seq<string>)
    requires forall i :: 0 <= i < |sent| ==> Spells(codec, sent[i], other, more)
    requires Concat(chunks) == StreamText(sent, false)
    requires |sent| >= 2 && sent[|sent| - 1].chunk == CALLS_END
    requires |sent| == 2 ==> sent[0].chunk == Chunk(None, None, [CALL_A, CALL_B], None)
    requires |sent| > 2 ==> |sent| == 3 && sent[0].chunk == Chunk(None, None, [CALL_A], None)
                            && sent[1].chunk == Chunk(None, None, [CALL_B], None)
    ensures OpenAiFeedAll(codec, OPENAI_START, chunks).calls
            == [ParsedToolCall("a", "f", codec.ParseOrNull("{}")), ParsedToolCall("b", "g", codec.ParseOrNull("{}"))]
  {
    hide OpenAiFeedAll, LinesRead, ApplyAll, Assemble, Flush, Absorb, AbsorbAll, StreamText, Spells, Terminated, Concat;
    hide DropBlocks, Blocks, BlocksRead, DoneBeforeLastBlock;
    SentIsRead(codec, sent, other, more, false, chunks);
    StreamReadsLines(codec, OPENAI_START, chunks);
    var lines := SentLines(sent, false);
    CallsAreAssembled(codec, OPENAI_START, lines);
    TwoCallsSignals(sent);
    AssemblePieces(codec, Slots([], 0), [CALL_A, CALL_B], [FlushPoint]);
    TwoCallsAbsorbed(codec);
    TwoCallsFlushed(codec);
    var held := AbsorbAll(codec, Slots([], 0), [CALL_A, CALL_B]);
    FlushAssembled(codec, held, []);
    NothingSignalled(codec, Slots([], 0));
    assert [FlushPoint] + [] == [FlushPoint];
  }

  lemma NothingSignalled(codec: Codec, slots: Slots)
    ensures Assemble(codec, slots, []) == Assembled([], slots)
  {
  }

  lemma {:induction false} TwoCallsSignals(sent: seq<Sent>)
    requires |sent| >= 2 && sent[|sent| - 1].chunk == CALLS_END
    requires |sent| == 2 ==> sent[0].chunk == Chunk(None, None, [CALL_A, CALL_B], None)
    requires |sent| > 2 ==> |sent| == 3 && sent[0].chunk == Chunk(None, None, [CALL_A], None)
                            && sent[1].chunk == Chunk(None, None, [CALL_B], None)
    ensures Signals(SentLines(sent, false)) == Pieces([CALL_A, CALL_B]) + [FlushPoint]
  {
    var end := LineOf(CALLS_END);
    assert Signals([end]) == [FlushPoint] by {
      assert [end][1..] == [];
    }
    assert Pieces([CALL_A, CALL_B]) == Pieces([CALL_A]) + Pieces([CALL_B]) by {
      assert [CALL_A, CALL_B][1..] == [CALL_B];
    }
    if |sent| == 2 {
      var first := LineOf(sent[0].chunk);
      assert sent[1..][1..] == [];
      assert SentLines(sent[1..], false) == [end];
      assert SentLines(sent, false) == [first, end];
      assert [first, end][1..] == [end];
    } else {
      var first, second := LineOf(sent[0].chunk), LineOf(sent[1].chunk);
      assert sent[1..][1..] == sent[2..] && sent[2..][1..] == [];
      assert SentLines(sent[2..], false) == [end];
      assert SentLines(sent[1..], false) == [second, end];
      assert SentLines(sent, false) == [first, second, end];
      assert [first, second, end][1..] == [second, end] && [second, end][1..] == [end];
    }
  }
}

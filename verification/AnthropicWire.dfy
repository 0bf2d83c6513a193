/**
 * The other end of an Anthropic stream: how a provider writes its events down, said without any
 * reader, and that the parser reads back what was written, whatever the chunks of the body.
 */
module AnthropicWire {
  import opened Text
  import opened Json
  import opened SseFraming
  import opened AnthropicParser

  // ----- writing -----

  /** The three reasons with which a message ends. */
  predicate EndReason(reason: string) {
    reason == "tool_use" || reason == "end_turn" || reason == "max_tokens"
  }

  /** The name of the event that says `m`; a message end is said by a `message_stop`, or else by a
      `message_delta` with a reason. */
  function Kind(m: Message, reason: Option<string>): string {
    match m
    case Nothing => "ping"
    case Start(_) => "content_block_start"
    case TextPiece(_) => "content_block_delta"
    case ThinkingPiece(_) => "content_block_delta"
    case InputPiece(_) => "content_block_delta"
    case BlockStop => "content_block_stop"
    case MessageEnd => if reason.Some? then "message_delta" else "message_stop"
  }

  /** An object with a field `kind` of its own, and one more. */
  function Typed(kind: string, key: string, text: string, other: map<string, Json>): Json {
    Obj(With(With(other, key, Some(Str(text))), "type", Some(Str(kind))))
  }

  function WrittenBlock(block: BlockType, other: map<string, Json>): Json {
    match block
    case TextBlock => Obj(With(other, "type", Some(Str("text"))))
    case ThinkingBlock => Obj(With(other, "type", Some(Str("thinking"))))
    case ToolUse(id, name, _) => Typed("tool_use", "id", id, With(other, "name", Some(Str(name))))
  }

  /** The data of the event that says `m`; at every level there are other fields. */
  function Data(m: Message, reason: Option<string>, other: map<string, Json>): Json {
    match m
    case Nothing => Obj(other)
    case Start(block) => Obj(With(other, "content_block", Some(WrittenBlock(block, other))))
    case TextPiece(text) => Obj(With(other, "delta", Some(Typed("text_delta", "text", text, other))))
    case ThinkingPiece(text) => Obj(With(other, "delta", Some(Typed("thinking_delta", "thinking", text, other))))
    case InputPiece(json) => Obj(With(other, "delta", Some(Typed("input_json_delta", "partial_json", json, other))))
    case BlockStop => Obj(other)
    case MessageEnd => Obj(With(other, "delta", Some(Obj(With(other, "stop_reason", OptStr(reason))))))
  }

  /** A tool-use block starts without arguments, and a reason is one of the three. */
  predicate Sendable(m: Message, reason: Option<string>) {
    && (m.Start? && m.block.ToolUse? ==> m.block.arguments == "")
    && (reason.Some? ==> EndReason(reason.value))
  }

  // ----- reading back -----

  lemma TypedReadsBack(kind: string, key: string, text: string, other: map<string, Json>)
    requires key != "type"
    ensures var j := Some(Typed(kind, key, text, other)); StrOr(j, "type") == kind && StrOr(j, key) == text
  {
  }

  lemma StartReadsBack(block: BlockType, other: map<string, Json>)
    requires block.ToolUse? ==> block.arguments == ""
    ensures ReadStart(Data(Start(block), None, other)) == Start(block)
  {
    hide Typed;
    var data := Data(Start(block), None, other);
    var written := WrittenBlock(block, other);
    assert data.Get("content_block") == Some(written);
    match block
    case TextBlock =>
    case ThinkingBlock =>
    case ToolUse(id, name, _) => ToolUseReadsBack(id, name, other);
  }

  lemma ToolUseReadsBack(id: string, name: string, other: map<string, Json>)
    ensures var j := Some(WrittenBlock(ToolUse(id, name, ""), other));
            StrOr(j, "type") == "tool_use" && StrOr(j, "id") == id && StrOr(j, "name") == name
  {
  }

  lemma PieceReadsBack(m: Message, other: map<string, Json>)
    requires m.TextPiece? || m.ThinkingPiece? || m.InputPiece?
    ensures ReadDelta(Data(m, None, other)) == m
  {
    hide Typed;
    match m {
      case TextPiece(text) => TypedReadsBack("text_delta", "text", text, other);
      case ThinkingPiece(text) => TypedReadsBack("thinking_delta", "thinking", text, other);
      case InputPiece(json) => TypedReadsBack("input_json_delta", "partial_json", json, other);
    }
  }

  /** Every message is read back as it was written, whatever other fields go with it. */
  lemma MessageReadsBack(codec: Codec, m: Message, reason: Option<string>, text: string, other: map<string, Json>)
    requires Sendable(m, reason)
    requires text != "" && codec.parse(text) == Some(Data(m, reason, other))
    ensures ReadMessage(codec, Kind(m, reason), text) == m
  {
    hide ReadStart, ReadDelta, Typed, WrittenBlock;
    match m
    case Start(block) => StartReadsBack(block, other);
    case TextPiece(_) => PieceReadsBack(m, other);
    case ThinkingPiece(_) => PieceReadsBack(m, other);
    case InputPiece(_) => PieceReadsBack(m, other);
    case _ =>
  }

  /** What a JSON event says, on its fields: the one of seven, or nothing. */
  lemma MessageExactly(codec: Codec, kind: string, text: string, data: Json)
    requires text != "" && codec.parse(text) == Some(data)
    ensures var m := ReadMessage(codec, kind, text);
            && (m == Start(TextBlock) <==> kind == "content_block_start" && HoldsInner(data, "content_block", "type", Str("text")))
            && (m == Start(ThinkingBlock) <==>
                  kind == "content_block_start" && HoldsInner(data, "content_block", "type", Str("thinking")))
            && (m.Start? && m.block.ToolUse? <==>
                  kind == "content_block_start" && HoldsInner(data, "content_block", "type", Str("tool_use")))
            && (m.TextPiece? <==> kind == "content_block_delta" && HoldsInner(data, "delta", "type", Str("text_delta")))
            && (m.ThinkingPiece? <==> kind == "content_block_delta" && HoldsInner(data, "delta", "type", Str("thinking_delta")))
            && (m.InputPiece? <==> kind == "content_block_delta" && HoldsInner(data, "delta", "type", Str("input_json_delta")))
            && (m.BlockStop? <==> kind == "content_block_stop")
            && (m.MessageEnd? <==>
                  || kind == "message_stop"
                  || (kind == "message_delta" && (|| HoldsInner(data, "delta", "stop_reason", Str("tool_use"))
                                                  || HoldsInner(data, "delta", "stop_reason", Str("end_turn"))
                                                  || HoldsInner(data, "delta", "stop_reason", Str("max_tokens")))))
  {
  }

  /** The strings of such a message are those of its fields, or empty where there are none. */
  lemma MessageTextsExactly(codec: Codec, kind: string, text: string, data: Json)
    requires text != "" && codec.parse(text) == Some(data)
    ensures var m := ReadMessage(codec, kind, text);
            && (m.TextPiece? ==> IsTextAt(data, "delta", "text", m.text))
            && (m.ThinkingPiece? ==> IsTextAt(data, "delta", "thinking", m.text))
            && (m.InputPiece? ==> IsTextAt(data, "delta", "partial_json", m.json))
            && (m.Start? && m.block.ToolUse? ==>
                  && IsTextAt(data, "content_block", "id", m.block.id)
                  && IsTextAt(data, "content_block", "name", m.block.name)
                  && m.block.arguments == "")
  {
  }

  /** `text` is the string in that field, or empty if there is none. */
  ghost predicate IsTextAt(data: Json, outer: string, key: string, text: string) {
    HoldsInner(data, outer, key, Str(text)) || (text == "" && forall s :: !HoldsInner(data, outer, key, Str(s)))
  }

  // ----- whole streams -----

  /** A message, how its end is said, and the JSON text it was written as. */
  datatype Sent = Sent(message: Message, reason: Option<string>, text: string)

  ghost predicate Spells(codec: Codec, s: Sent, other: map<string, Json>) {
    && Sendable(s.message, s.reason)
    && OneLine(s.text)
    && codec.parse(s.text) == Some(Data(s.message, s.reason, other))
  }

  function SentBlock(s: Sent): string {
    "event: " + Kind(s.message, s.reason) + "\n" + ("data: " + s.text)
  }

  function SentBlocks(sent: seq<Sent>): seq<string> {
    if sent == [] then [] else [SentBlock(sent[0])] + SentBlocks(sent[1..])
  }

  function SentMessages(sent: seq<Sent>): seq<Message> {
    if sent == [] then [] else [sent[0].message] + SentMessages(sent[1..])
  }

  lemma KindIsOneLine(m: Message, reason: Option<string>)
    ensures OneLine(Kind(m, reason))
  {
  }

  lemma LabelledIsOneLine(head: string, text: string)
    requires head == "event: " || head == "data: "
    requires OneLine(text)
    ensures OneLine(head + text) && Trim(head + text) == head + text && Trim(text) == text
  {
    var line := head + text;
    assert line[|line| - 1] == text[|text| - 1];
    forall c | c in line
      ensures c != '\n'
    {
    }
  }

  /** The two lines of an event are its kind and its data. */
  lemma SentBlockRead(s: Sent)
    requires OneLine(s.text)
    ensures var block := SentBlock(s);
            EventType(Lines(block)) == Kind(s.message, s.reason) && DataLine(Lines(block)) == s.text && Sealed(block)
  {
    hide OneLine, Kind, Trim, Lines, Find;
    var kind := Kind(s.message, s.reason);
    var a, b := "event: " + kind, "data: " + s.text;
    KindIsOneLine(s.message, s.reason);
    LabelledIsOneLine("event: ", kind);
    LabelledIsOneLine("data: ", s.text);
    assert a + "\n" + b == SentBlock(s);
    TwoLines(a, b);
    TwoLinesSealed(a, b);
    assert [a, b][..1] == [a];
    assert a[|EVENT|..] == kind && b[|DATA|..] == s.text && b[0] == 'd';
  }

  lemma TwoLinesSealed(a: string, b: string)
    requires OneLine(a) && OneLine(b)
    ensures Sealed(a + "\n" + b)
  {
    var s := a + "\n" + b;
    forall i
      ensures !OccursAt(s, "\n\n", i)
    {
      if 0 <= i && i + 2 <= |s| {
        assert s[i..i + 2][0] == s[i] && s[i..i + 2][1] == s[i + 1];
        assert i < |a| ==> s[i] == a[i];
        assert i >= |a| ==> s[i + 1] == b[i - |a|];
      }
    }
    assert s[|s| - 1] == b[|b| - 1];
    assert IsWhitespace('\n');
  }

  lemma {:induction false} SentBlocksRead(codec: Codec, sent: seq<Sent>, other: map<string, Json>)
    requires forall i :: 0 <= i < |sent| ==> Spells(codec, sent[i], other)
    ensures |SentBlocks(sent)| == |sent|
    ensures forall i :: 0 <= i < |sent| ==> Sealed(SentBlocks(sent)[i])
    ensures Messages(codec, SentBlocks(sent)) == SentMessages(sent)
  {
    hide Sealed, SentBlock, EventType, DataLine, Lines, ReadMessage, Data, Kind, Sendable;
    if sent != [] {
      var s := sent[0];
      SentBlockRead(s);
      assert s.text != "";
      MessageReadsBack(codec, s.message, s.reason, s.text, other);
      SentBlocksRead(codec, sent[1..], other);
      assert SentBlocks(sent)[1..] == SentBlocks(sent[1..]);
    }
  }

  /**
   * A stream means what was written: whatever the chunks its body comes in, its text and thinking
   * pieces are sent as they were written, in order; the calls are those of the blocks written before
   * each message end; and nothing is left over.
   */
  lemma SentMeans(codec: Codec, sent: seq<Sent>, other: map<string, Json>, chunks: seq<string>)
    requires forall i :: 0 <= i < |sent| ==> Spells(codec, sent[i], other)
    requires Concat(chunks) == Terminated(SentBlocks(sent))
    ensures var ms := SentMessages(sent);
            AnthropicFeedAll(codec, chunks)
            == Parsed(AnthropicState(OpenBlock(ms), Gathered(ms)), DeltasOf(ms), CallsOf(codec, ms), "")
  {
    hide Blocks, Leftover, Terminated, FeedAll, OpenBlock, Gathered, DeltasOf, CallsOf, Spells, SentBlocks, SentMessages, Concat;
    SentBlocksRead(codec, sent, other);
    TerminatedIsCut(SentBlocks(sent));
    StreamMeans(codec, chunks);
  }
}

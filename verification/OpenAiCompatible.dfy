/** Translating a transcript into the OpenAI wire format, and an OpenAI answer back. */
module OpenAiCompatible {
  import opened Text
  import opened Json
  import opened Transcript

  datatype OpenAiToolCall = OpenAiToolCall(id: string, name: string, arguments: string)

  datatype OpenAiMessage = OpenAiMessage(
    role: string,
    content: Option<string>,
    toolCalls: Option<seq<OpenAiToolCall>>,
    toolCallId: Option<string>,
    reasoning: Option<string>)

  function NonEmpty(text: string): Option<string> {
    if text == "" then None else Some(text)
  }

  function RoleName(role: Role): string {
    if role.User? then "user" else "assistant"
  }

  function CallsIn(codec: Codec, content: seq<ContentBlock>): (r: seq<OpenAiToolCall>)
    ensures |r| == |UseIds(content)| && forall k :: 0 <= k < |r| ==> r[k].id == UseIds(content)[k]
  {
    if content == [] then []
    else (if content[0].ToolUse?
          then [OpenAiToolCall(content[0].id, content[0].name, codec.render(content[0].input))] else [])
         + CallsIn(codec, content[1..])
  }

  function ResultsIn(content: seq<ContentBlock>): (r: seq<(string, string)>)
    ensures |r| == |ResultIds(content)| && forall k :: 0 <= k < |r| ==> r[k].0 == ResultIds(content)[k]
  {
    if content == [] then []
    else (if content[0].ToolResultBlock? then [(content[0].toolUseId, content[0].content)] else [])
         + ResultsIn(content[1..])
  }

  function ToolMessage(result: (string, string)): OpenAiMessage {
    OpenAiMessage("tool", Some(result.1), None, Some(result.0), None)
  }

  function ToolMessages(results: seq<(string, string)>): (r: seq<OpenAiMessage>)
    ensures |r| == |results| && forall k :: 0 <= k < |r| ==> r[k] == ToolMessage(results[k])
  {
    seq(|results|, k requires 0 <= k < |results| => ToolMessage(results[k]))
  }

  function SystemMessages(system: string): seq<OpenAiMessage> {
    if system == "" then [] else [OpenAiMessage("system", Some(system), None, None, None)]
  }

  /** One message: answers become tool messages, anything else one message of its own. */
  function ConvertMessage(codec: Codec, m: ChatMessage): seq<OpenAiMessage> {
    var text := JoinFrom("", Texts(m.content));
    if Answers(m) then
      ToolMessages(ResultsIn(m.content))
      + if text == "" then [] else [OpenAiMessage("user", Some(text), None, None, None)]
    else
      var calls := CallsIn(codec, m.content);
      [OpenAiMessage(RoleName(m.role), NonEmpty(text), if calls == [] then None else Some(calls), None,
                     NonEmpty(JoinFrom("", Thoughts(m.content))))]
  }

  function ConvertAll(codec: Codec, ms: seq<ChatMessage>): seq<OpenAiMessage> {
    if ms == [] then [] else ConvertMessage(codec, ms[0]) + ConvertAll(codec, ms[1..])
  }

  function Convert(codec: Codec, system: string, ms: seq<ChatMessage>): seq<OpenAiMessage> {
    SystemMessages(system) + ConvertAll(codec, ms)
  }

  /** `anthropic_to_openai_messages` */
  method AnthropicToOpenAiMessages(codec: Codec, system: string, ms: seq<ChatMessage>) returns (out: seq<OpenAiMessage>)
    ensures out == Convert(codec, system, ms)
  {
    hide ConvertMessage;
    out := [];
    if system != "" {
      out := out + [OpenAiMessage("system", Some(system), None, None, None)];
    }
    var i := 0;
    while i < |ms|
      invariant 0 <= i <= |ms|
      invariant Convert(codec, system, ms) == out + ConvertAll(codec, ms[i..])
    {
      assert ms[i..][0] == ms[i] && ms[i..][1..] == ms[i + 1..];
      var converted := ConvertOne(codec, ms[i]);
      out := out + converted;
      i := i + 1;
    }
  }

  /** The loop body: gather the parts of one message, then push what they give. */
  method ConvertOne(codec: Codec, m: ChatMessage) returns (out: seq<OpenAiMessage>)
    ensures out == ConvertMessage(codec, m)
  {
    var text, reasoning, toolCalls, toolResults := GatherParts(codec, m.content);
    out := [];
    if m.role.User? && toolResults != [] {
      var k := 0;
      while k < |toolResults|
        invariant 0 <= k <= |toolResults|
        invariant out == ToolMessages(toolResults)[..k]
      {
        out := out + [OpenAiMessage("tool", Some(toolResults[k].1), None, Some(toolResults[k].0), None)];
        k := k + 1;
      }
      if text != "" {
        out := out + [OpenAiMessage("user", Some(text), None, None, None)];
      }
    } else {
      out := [OpenAiMessage(if m.role.User? then "user" else "assistant",
                            if text == "" then None else Some(text),
                            if toolCalls == [] then None else Some(toolCalls),
                            None,
                            if reasoning == "" then None else Some(reasoning))];
    }
  }

  method GatherParts(codec: Codec, content: seq<ContentBlock>)
    returns (text: string, reasoning: string, toolCalls: seq<OpenAiToolCall>, toolResults: seq<(string, string)>)
    ensures text == JoinFrom("", Texts(content)) && reasoning == JoinFrom("", Thoughts(content))
    ensures toolCalls == CallsIn(codec, content) && toolResults == ResultsIn(content)
  {
    hide Texts, Thoughts, CallsIn, ResultsIn, JoinFrom;
    text, reasoning, toolCalls, toolResults := "", "", [], [];
    assert content[0..] == content;
    var i := 0;
    while i < |content|
      invariant 0 <= i <= |content|
      invariant JoinFrom("", Texts(content)) == JoinFrom(text, Texts(content[i..]))
      invariant JoinFrom("", Thoughts(content)) == JoinFrom(reasoning, Thoughts(content[i..]))
      invariant CallsIn(codec, content) == toolCalls + CallsIn(codec, content[i..])
      invariant ResultsIn(content) == toolResults + ResultsIn(content[i..])
    {
      NextBlock(codec, content, i);
      match content[i] {
        case TextBlock(t) =>
          OnePart(t, Texts(content[i + 1..]), text);
          assert "" + t == t;
          if text != "" {
            text := text + "\n\n";
          }
          text := text + t;
        case Thinking(t, _) =>
          OnePart(t, Thoughts(content[i + 1..]), reasoning);
          assert "" + t == t;
          if reasoning != "" {
            reasoning := reasoning + "\n\n";
          }
          reasoning := reasoning + t;
        case ToolUse(id, name, input) =>
          toolCalls := toolCalls + [OpenAiToolCall(id, name, codec.render(input))];
        case ToolResultBlock(id, c) =>
          toolResults := toolResults + [(id, c)];
      }
      i := i + 1;
    }
    NoBlocks(codec, text);
    NoBlocks(codec, reasoning);
    assert content[i..] == [];
  }

  lemma NoBlocks(codec: Codec, acc: string)
    ensures JoinFrom(acc, Texts([])) == acc == JoinFrom(acc, Thoughts([]))
    ensures CallsIn(codec, []) == [] && ResultsIn([]) == []
  {
  }

  lemma NextBlock(codec: Codec, content: seq<ContentBlock>, i: nat)
    requires i < |content|
    ensures var b, rest := content[i], content[i + 1..];
            && Texts(content[i..]) == (if b.TextBlock? then [b.text] + Texts(rest) else Texts(rest))
            && Thoughts(content[i..]) == (if b.Thinking? then [b.thinking] + Thoughts(rest) else Thoughts(rest))
            && CallsIn(codec, content[i..])
               == (if b.ToolUse? then [OpenAiToolCall(b.id, b.name, codec.render(b.input))] + CallsIn(codec, rest)
                   else CallsIn(codec, rest))
            && ResultsIn(content[i..])
               == (if b.ToolResultBlock? then [(b.toolUseId, b.content)] + ResultsIn(rest) else ResultsIn(rest))
  {
    assert content[i..][0] == content[i] && content[i..][1..] == content[i + 1..];
  }

  lemma OnePart(part: string, rest: seq<string>, acc: string)
    ensures JoinFrom(acc, [part] + rest) == JoinFrom(AddPart(acc, part), rest)
  {
    assert ([part] + rest)[1..] == rest;
  }

  lemma {:induction false} ConvertConcat(codec: Codec, a: seq<ChatMessage>, b: seq<ChatMessage>)
    ensures ConvertAll(codec, a + b) == ConvertAll(codec, a) + ConvertAll(codec, b)
  {
    hide ConvertMessage;
    if a == [] {
      assert a + b == b;
    } else {
      assert (a + b)[1..] == a[1..] + b;
      ConvertConcat(codec, a[1..], b);
    }
  }

  /** A request that extends another converts to an extension of that conversion. */
  lemma ConvertExtends(codec: Codec, system: string, earlier: seq<ChatMessage>,
        later: seq<ChatMessage>)
    requires earlier <= later
    ensures Convert(codec, system, earlier) <= Convert(codec, system, later)
  {
    hide ConvertAll;
    assert later == earlier + later[|earlier|..];
    ConvertConcat(codec, earlier, later[|earlier|..]);
  }

  // ----- pairing on the wire -----

  /** The next `|calls|` messages answer the calls, in order. */
  predicate AnswerCalls(calls: seq<OpenAiToolCall>, out: seq<OpenAiMessage>) {
    && |calls| <= |out|
    && forall k :: 0 <= k < |calls| ==> out[k].role == "tool" && out[k].toolCallId == Some(calls[k].id)
  }

  /**
   * Reading from the left, every message with tool calls is directly followed by exactly its tool
   * messages, and no tool message stands anywhere else.
   */
  predicate Answered(out: seq<OpenAiMessage>)
    decreases |out|
  {
    out == [] ||
    (&& out[0].role != "tool"
     && match out[0].toolCalls
        case None => Answered(out[1..])
        case Some(calls) => AnswerCalls(calls, out[1..]) && Answered(out[1 + |calls|..]))
  }

  lemma {:induction false} AnsweredConcat(a: seq<OpenAiMessage>, b: seq<OpenAiMessage>)
    requires Answered(a) && Answered(b)
    ensures Answered(a + b)
    decreases |a|
  {
    if a == [] {
      assert a + b == b;
    } else {
      var n := if a[0].toolCalls.Some? then |a[0].toolCalls.value| else 0;
      AnsweredConcat(a[1 + n..], b);
      AnsweredFirst(a, b, n);
    }
  }

  lemma {:induction false} AnsweredFirst(a: seq<OpenAiMessage>, b: seq<OpenAiMessage>, n: nat)
    requires a != [] && Answered(a) && n < |a|
    requires n == if a[0].toolCalls.Some? then |a[0].toolCalls.value| else 0
    requires Answered(a[1 + n..] + b)
    ensures Answered(a + b)
  {
    assert (a + b)[1 + n..] == a[1 + n..] + b;
    assert (a + b)[0] == a[0];
    if a[0].toolCalls.Some? {
      forall k | 0 <= k < n
        ensures (a + b)[1..][k] == a[1..][k]
      {
      }
    }
  }

  /** An exchange of tool uses and results converts to calls and their answers. */
  lemma RoundAnswered(codec: Codec, a: ChatMessage, u: ChatMessage)
    requires Round(a, u) && Asks(a)
    ensures Answered(ConvertMessage(codec, a) + ConvertMessage(codec, u))
  {
    hide CallsIn, ResultsIn, JoinFrom, Texts, Thoughts, Answered;
    var calls := CallsIn(codec, a.content);
    var answers := ToolMessages(ResultsIn(u.content));
    var text := JoinFrom("", Texts(u.content));
    var tail := if text == "" then [] else [OpenAiMessage("user", Some(text), None, None, None)];
    TailAnswered(tail);
    assert AnswerCalls(calls, answers);
    CallsAnswered(ConvertMessage(codec, a)[0], calls, answers, tail);
    assert ConvertMessage(codec, a) + ConvertMessage(codec, u) == [ConvertMessage(codec, a)[0]] + (answers + tail);
  }

  lemma TailAnswered(tail: seq<OpenAiMessage>)
    requires |tail| <= 1 && forall i :: 0 <= i < |tail| ==> tail[i].role != "tool" && tail[i].toolCalls == None
    ensures Answered(tail)
  {
    assert tail != [] ==> tail[1..] == [];
  }

  lemma CallsAnswered(m: OpenAiMessage, calls: seq<OpenAiToolCall>, answers: seq<OpenAiMessage>,
        tail: seq<OpenAiMessage>)
    requires m.role != "tool" && m.toolCalls == Some(calls)
    requires |answers| == |calls| && AnswerCalls(calls, answers) && Answered(tail)
    ensures Answered([m] + (answers + tail))
  {
    var out := [m] + (answers + tail);
    assert out[1..] == answers + tail;
    assert out[1 + |calls|..] == tail;
  }

  /** A paired transcript stays paired on the wire. */
  lemma {:induction false} PairedConverts(codec: Codec, ms: seq<ChatMessage>)
    requires Paired(ms)
    ensures Answered(ConvertAll(codec, ms))
    decreases |ms|
  {
    hide ConvertMessage, Answered;
    if ms == [] {
      NothingToAnswer();
    } else {
      assert PairedAt(ms, 0);
      if Asks(ms[0]) {
        assert PairedAt(ms, 1);
        if 2 < |ms| {
          assert PairedAt(ms, 2);
        }
        PairedDrop(ms, 2);
        PairedConverts(codec, ms[2..]);
        RoundAnswered(codec, ms[0], ms[1]);
        ConvertTwo(codec, ms);
        AnsweredConcat(ConvertMessage(codec, ms[0]) + ConvertMessage(codec, ms[1]), ConvertAll(codec, ms[2..]));
      } else {
        if 1 < |ms| {
          assert PairedAt(ms, 1);
        }
        PairedDrop(ms, 1);
        PairedConverts(codec, ms[1..]);
        PlainAnswered(codec, ms[0]);
        AnsweredConcat(ConvertMessage(codec, ms[0]), ConvertAll(codec, ms[1..]));
      }
    }
  }

  lemma NothingToAnswer()
    ensures Answered([])
  {
  }

  lemma ConvertTwo(codec: Codec, ms: seq<ChatMessage>)
    requires |ms| >= 2
    ensures ConvertAll(codec, ms)
            == ConvertMessage(codec, ms[0]) + ConvertMessage(codec, ms[1]) + ConvertAll(codec, ms[2..])
  {
    hide ConvertMessage;
    assert ms[1..][1..] == ms[2..];
  }

  lemma PlainAnswered(codec: Codec, m: ChatMessage)
    requires UseIds(m.content) == [] && !Answers(m)
    ensures Answered(ConvertMessage(codec, m))
  {
    hide CallsIn, ResultsIn, JoinFrom, Texts, Thoughts;
    var out := ConvertMessage(codec, m);
    assert out[0].toolCalls == None && out[1..] == [];
  }

  /** Every request whose transcript is paired is well formed on the wire, system prompt included. */
  lemma RequestAnswered(codec: Codec, system: string, ms: seq<ChatMessage>)
    requires Paired(ms)
    ensures Answered(Convert(codec, system, ms))
  {
    hide ConvertAll;
    PairedConverts(codec, ms);
    assert system != "" ==> SystemMessages(system)[1..] == [];
    AnsweredConcat(SystemMessages(system), ConvertAll(codec, ms));
  }

  /**
   * A run of an agent on the wire: each of its requests is answered in full, and each converted
   * request extends the one converted before it.
   */
  lemma PairedRunOnWire(codec: Codec, system: string, requests: seq<seq<ChatMessage>>)
    requires PairedRun(requests)
    ensures forall k :: 0 <= k < |requests| ==> Answered(Convert(codec, system, requests[k]))
    ensures forall k :: 0 < k < |requests| ==>
                          Convert(codec, system, requests[k - 1]) <= Convert(codec, system, requests[k])
  {
    hide Convert, Answered, Paired;
    forall k | 0 <= k < |requests|
      ensures Answered(Convert(codec, system, requests[k]))
      ensures k > 0 ==> Convert(codec, system, requests[k - 1]) <= Convert(codec, system, requests[k])
    {
      RequestAnswered(codec, system, requests[k]);
      if k > 0 {
        ConvertExtends(codec, system, requests[k - 1], requests[k]);
      }
    }
  }

  // ----- nothing is lost on the wire -----

  function FlatMap<S, T>(xs: seq<S>, f: S -> seq<T>): seq<T> {
    if xs == [] then [] else f(xs[0]) + FlatMap(xs[1..], f)
  }

  lemma {:induction false} FlatMapConcat<S, T>(a: seq<S>, b: seq<S>, f: S -> seq<T>)
    ensures FlatMap(a + b, f) == FlatMap(a, f) + FlatMap(b, f)
  {
    if a == [] {
      assert a + b == b;
    } else {
      assert (a + b)[1..] == a[1..] + b;
      FlatMapConcat(a[1..], b, f);
    }
  }

  function CallsOf(m: OpenAiMessage): seq<OpenAiToolCall> {
    if m.toolCalls.Some? then m.toolCalls.value else []
  }

  function AnswerOf(m: OpenAiMessage): seq<(string, string)> {
    if m.role == "tool" && m.toolCallId.Some? && m.content.Some? then [(m.toolCallId.value, m.content.value)] else []
  }

  /** Who says what, tool output aside. */
  function SpokenOf(m: OpenAiMessage): seq<(string, string)> {
    if m.role != "tool" && m.content.Some? then [(m.role, m.content.value)] else []
  }

  function ReasonedOf(m: OpenAiMessage): seq<string> {
    if m.role == "assistant" && m.reasoning.Some? then [m.reasoning.value] else []
  }

  function CallsOnWire(out: seq<OpenAiMessage>): seq<OpenAiToolCall> {
    FlatMap(out, CallsOf)
  }

  function AnswersOnWire(out: seq<OpenAiMessage>): seq<(string, string)> {
    FlatMap(out, AnswerOf)
  }

  function SpokenOnWire(out: seq<OpenAiMessage>): seq<(string, string)> {
    FlatMap(out, SpokenOf)
  }

  function ReasonedOnWire(out: seq<OpenAiMessage>): seq<string> {
    FlatMap(out, ReasonedOf)
  }

  lemma WireConcat(a: seq<OpenAiMessage>, b: seq<OpenAiMessage>)
    ensures CallsOnWire(a + b) == CallsOnWire(a) + CallsOnWire(b)
    ensures AnswersOnWire(a + b) == AnswersOnWire(a) + AnswersOnWire(b)
    ensures SpokenOnWire(a + b) == SpokenOnWire(a) + SpokenOnWire(b)
    ensures ReasonedOnWire(a + b) == ReasonedOnWire(a) + ReasonedOnWire(b)
  {
    FlatMapConcat(a, b, CallsOf);
    FlatMapConcat(a, b, AnswerOf);
    FlatMapConcat(a, b, SpokenOf);
    FlatMapConcat(a, b, ReasonedOf);
  }

  lemma WireSingle(m: OpenAiMessage)
    ensures CallsOnWire([m]) == CallsOf(m) && AnswersOnWire([m]) == AnswerOf(m)
    ensures SpokenOnWire([m]) == SpokenOf(m) && ReasonedOnWire([m]) == ReasonedOf(m)
  {
    FlatMapSingle(m, CallsOf);
    FlatMapSingle(m, AnswerOf);
    FlatMapSingle(m, SpokenOf);
    FlatMapSingle(m, ReasonedOf);
  }

  lemma FlatMapSingle<S, T>(x: S, f: S -> seq<T>)
    ensures FlatMap([x], f) == f(x)
  {
    assert FlatMap([x], f) == f(x) + FlatMap([x][1..], f);
  }

  function One<T>(present: bool, value: T): seq<T> {
    if present then [value] else []
  }

  function AllCalls(codec: Codec, ms: seq<ChatMessage>): seq<OpenAiToolCall> {
    if ms == [] then [] else CallsIn(codec, ms[0].content) + AllCalls(codec, ms[1..])
  }

  function AllAnswers(ms: seq<ChatMessage>): seq<(string, string)> {
    if ms == [] then []
    else (if ms[0].role.User? then ResultsIn(ms[0].content) else []) + AllAnswers(ms[1..])
  }

  function AllSpoken(ms: seq<ChatMessage>): seq<(string, string)> {
    if ms == [] then []
    else
      var text := JoinFrom("", Texts(ms[0].content));
      One(text != "", (RoleName(ms[0].role), text)) + AllSpoken(ms[1..])
  }

  function AllReasoned(ms: seq<ChatMessage>): seq<string> {
    if ms == [] then []
    else
      var thoughts := JoinFrom("", Thoughts(ms[0].content));
      One(ms[0].role.Assistant? && thoughts != "", thoughts) + AllReasoned(ms[1..])
  }

  lemma {:induction false} ToolMessagesOnWire(results: seq<(string, string)>)
    ensures CallsOnWire(ToolMessages(results)) == [] && SpokenOnWire(ToolMessages(results)) == []
    ensures ReasonedOnWire(ToolMessages(results)) == [] && AnswersOnWire(ToolMessages(results)) == results
  {
    if results != [] {
      assert ToolMessages(results)[1..] == ToolMessages(results[1..]);
      ToolMessagesOnWire(results[1..]);
    }
  }

  lemma MessageOnWire(codec: Codec, m: ChatMessage)
    requires m.role.User? ==> UseIds(m.content) == []
    ensures var out := ConvertMessage(codec, m);
            var text, thoughts := JoinFrom("", Texts(m.content)), JoinFrom("", Thoughts(m.content));
            && CallsOnWire(out) == CallsIn(codec, m.content)
            && AnswersOnWire(out) == (if m.role.User? then ResultsIn(m.content) else [])
            && SpokenOnWire(out) == One(text != "", (RoleName(m.role), text))
            && ReasonedOnWire(out) == One(m.role.Assistant? && thoughts != "", thoughts)
  {
    hide CallsIn, ResultsIn, JoinFrom, Texts, Thoughts, ToolMessages;
    var out := ConvertMessage(codec, m);
    if Answers(m) {
      var text := JoinFrom("", Texts(m.content));
      var spoken := if text == "" then [] else [OpenAiMessage("user", Some(text), None, None, None)];
      ToolMessagesOnWire(ResultsIn(m.content));
      WireConcat(ToolMessages(ResultsIn(m.content)), spoken);
      if spoken != [] {
        WireSingle(spoken[0]);
      }
    } else {
      WireSingle(out[0]);
    }
  }

  lemma {:induction false} MessagesPreserved(codec: Codec, ms: seq<ChatMessage>)
    requires forall i :: 0 <= i < |ms| ==> ms[i].role.User? ==> UseIds(ms[i].content) == []
    ensures var out := ConvertAll(codec, ms);
            && CallsOnWire(out) == AllCalls(codec, ms)
            && AnswersOnWire(out) == AllAnswers(ms)
            && SpokenOnWire(out) == AllSpoken(ms)
            && ReasonedOnWire(out) == AllReasoned(ms)
  {
    hide ConvertMessage, CallsIn, ResultsIn, JoinFrom, Texts, Thoughts, UseIds;
    if ms != [] {
      MessagesPreserved(codec, ms[1..]);
      MessageOnWire(codec, ms[0]);
      WireConcat(ConvertMessage(codec, ms[0]), ConvertAll(codec, ms[1..]));
    }
  }

  /**
   * Conversion keeps, in order, every tool call, every answer with its id, everything said with its
   * speaker, and the assistant's reasoning. The system prompt, if there is one, is said first, by the
   * system, and adds nothing else.
   */
  lemma ConversionPreserves(codec: Codec, system: string, ms: seq<ChatMessage>)
    requires forall i :: 0 <= i < |ms| ==> ms[i].role.User? ==> UseIds(ms[i].content) == []
    ensures var out := Convert(codec, system, ms);
            && CallsOnWire(out) == AllCalls(codec, ms)
            && AnswersOnWire(out) == AllAnswers(ms)
            && SpokenOnWire(out) == (if system == "" then [] else [("system", system)]) + AllSpoken(ms)
            && ReasonedOnWire(out) == AllReasoned(ms)
    ensures system != "" ==> Convert(codec, system, ms)[0].content == Some(system)
  {
    hide ConvertAll, AllCalls, AllAnswers, AllSpoken, AllReasoned;
    MessagesPreserved(codec, ms);
    WireConcat(SystemMessages(system), ConvertAll(codec, ms));
    if system != "" {
      WireSingle(SystemMessages(system)[0]);
    }
  }

  // ----- reading a wire transcript back -----

  function UsesFrom(codec: Codec, calls: seq<OpenAiToolCall>): seq<ContentBlock> {
    if calls == [] then []
    else [ToolUse(calls[0].id, calls[0].name, codec.ParseOrNull(calls[0].arguments))] + UsesFrom(codec, calls[1..])
  }

  function AnswerBlocks(results: seq<(string, string)>): seq<ContentBlock> {
    if results == [] then [] else [ToolResultBlock(results[0].0, results[0].1)] + AnswerBlocks(results[1..])
  }

  function LeadingTools(out: seq<OpenAiMessage>): (n: nat)
    ensures n <= |out|
  {
    if out != [] && out[0].role == "tool" then 1 + LeadingTools(out[1..]) else 0
  }

  function DecodeOne(codec: Codec, m: OpenAiMessage): ChatMessage {
    ChatMessage(if m.role == "user" then User else Assistant,
                AssistantBlocks(TextOrEmpty(m.reasoning), TextOrEmpty(m.content),
                                UsesFrom(codec, if m.toolCalls.Some? then m.toolCalls.value else [])))
  }

  function TextOrEmpty(t: Option<string>): string {
    if t.Some? then t.value else ""
  }

  /** Each run of tool messages is one answering message, every other message stands alone. */
  function DecodeAll(codec: Codec, out: seq<OpenAiMessage>): seq<ChatMessage>
    decreases |out|
  {
    if out == [] then []
    else if out[0].role == "tool" then
      var n := LeadingTools(out);
      [ChatMessage(User, AnswerBlocks(AnswersOnWire(out[..n])))] + DecodeAll(codec, out[n..])
    else [DecodeOne(codec, out[0])] + DecodeAll(codec, out[1..])
  }

  function UsesIn(content: seq<ContentBlock>): seq<ContentBlock> {
    if content == [] then [] else One(content[0].ToolUse?, content[0]) + UsesIn(content[1..])
  }

  /**
   * A message with its thoughts joined, its texts joined, and its tool uses, in that order; text
   * beside answers becomes a message of its own.
   */
  function Normal(m: ChatMessage): seq<ChatMessage> {
    var text := JoinFrom("", Texts(m.content));
    if Answers(m) then
      [ChatMessage(User, AnswerBlocks(ResultsIn(m.content)))]
      + if text == "" then [] else [ChatMessage(User, [TextBlock(text)])]
    else [ChatMessage(m.role, AssistantBlocks(JoinFrom("", Thoughts(m.content)), text, UsesIn(m.content)))]
  }

  function NormalAll(ms: seq<ChatMessage>): seq<ChatMessage> {
    if ms == [] then [] else Normal(ms[0]) + NormalAll(ms[1..])
  }

  ghost predicate Lossless(codec: Codec) {
    forall j :: codec.parse(codec.render(j)) == Some(j)
  }

  lemma {:induction false} UsesBack(codec: Codec, content: seq<ContentBlock>)
    requires Lossless(codec)
    ensures UsesFrom(codec, CallsIn(codec, content)) == UsesIn(content)
  {
    if content != [] {
      UsesBack(codec, content[1..]);
      if content[0].ToolUse? {
        assert CallsIn(codec, content)[1..] == CallsIn(codec, content[1..]);
      } else {
        assert CallsIn(codec, content) == CallsIn(codec, content[1..]);
      }
    }
  }

  lemma {:induction false} LeadingToolMessages(results: seq<(string, string)>, rest: seq<OpenAiMessage>)
    requires rest != [] ==> rest[0].role != "tool"
    ensures LeadingTools(ToolMessages(results) + rest) == |results|
  {
    if results == [] {
      assert ToolMessages(results) + rest == rest;
    } else {
      assert (ToolMessages(results) + rest)[1..] == ToolMessages(results[1..]) + rest;
      LeadingToolMessages(results[1..], rest);
    }
  }

  lemma DecodePlain(codec: Codec, m: ChatMessage, rest: seq<OpenAiMessage>)
    requires Lossless(codec) && !Answers(m)
    ensures DecodeAll(codec, ConvertMessage(codec, m) + rest) == Normal(m) + DecodeAll(codec, rest)
  {
    hide JoinFrom, Texts, Thoughts, CallsIn, UsesIn, UsesFrom;
    var out := ConvertMessage(codec, m) + rest;
    assert out[1..] == rest;
    UsesBack(codec, m.content);
    assert [DecodeOne(codec, out[0])] == Normal(m);
  }

  lemma DecodeToolRun(codec: Codec, results: seq<(string, string)>, rest: seq<OpenAiMessage>)
    requires results != [] && (rest != [] ==> rest[0].role != "tool")
    ensures DecodeAll(codec, ToolMessages(results) + rest)
            == [ChatMessage(User, AnswerBlocks(results))] + DecodeAll(codec, rest)
  {
    var out := ToolMessages(results) + rest;
    LeadingToolMessages(results, rest);
    ToolMessagesOnWire(results);
    assert out[..|results|] == ToolMessages(results) && out[|results|..] == rest;
    assert out[0].role == "tool";
  }

  lemma DecodeText(codec: Codec, text: string, rest: seq<OpenAiMessage>)
    requires text != ""
    ensures DecodeAll(codec, [OpenAiMessage("user", Some(text), None, None, None)] + rest)
            == [ChatMessage(User, [TextBlock(text)])] + DecodeAll(codec, rest)
  {
    var m := OpenAiMessage("user", Some(text), None, None, None);
    assert ([m] + rest)[1..] == rest;
    assert UsesFrom(codec, []) == [];
    assert DecodeOne(codec, m) == ChatMessage(User, [TextBlock(text)]);
  }

  lemma {:induction false} DecodeAnswers(codec: Codec, m: ChatMessage, rest: seq<OpenAiMessage>)
    requires Answers(m) && (rest != [] ==> rest[0].role != "tool")
    ensures DecodeAll(codec, ConvertMessage(codec, m) + rest) == Normal(m) + DecodeAll(codec, rest)
  {
    hide JoinFrom, Texts, Thoughts, DecodeAll, ResultsIn;
    var results, text := ResultsIn(m.content), JoinFrom("", Texts(m.content));
    if text == "" {
      assert ConvertMessage(codec, m) + rest == ToolMessages(results) + rest;
      DecodeToolRun(codec, results, rest);
    } else {
      var said := [OpenAiMessage("user", Some(text), None, None, None)] + rest;
      assert ConvertMessage(codec, m) + rest == ToolMessages(results) + said;
      DecodeToolRun(codec, results, said);
      DecodeText(codec, text, rest);
    }
  }

  lemma StartsPlain(codec: Codec, ms: seq<ChatMessage>)
    requires ms != [] ==> !Answers(ms[0])
    ensures var out := ConvertAll(codec, ms); out != [] ==> out[0].role != "tool"
  {
    hide JoinFrom, Texts, Thoughts, CallsIn;
  }

  /**
   * Round trip: every paired transcript is read back from the wire message by message, up to
   * joining the texts of a message and letting text beside answers stand alone.
   */
  lemma {:induction false} RoundTrip(codec: Codec, ms: seq<ChatMessage>)
    requires Lossless(codec) && Paired(ms)
    ensures DecodeAll(codec, ConvertAll(codec, ms)) == NormalAll(ms)
    decreases |ms|
  {
    hide ConvertMessage, Normal, Lossless, DecodeAll, JoinFrom, Texts;
    if ms == [] {
      DecodeNothing(codec);
    } else {
      assert PairedAt(ms, 0);
      if 1 < |ms| {
        assert PairedAt(ms, 1);
      }
      if Asks(ms[0]) {
        if 2 < |ms| {
          assert PairedAt(ms, 2);
        }
        var rest := ms[2..];
        PairedDrop(ms, 2);
        RoundTrip(codec, rest);
        ConvertTwo(codec, ms);
        StartsPlain(codec, rest);
        DecodeAnswers(codec, ms[1], ConvertAll(codec, rest));
        var tail := ConvertMessage(codec, ms[1]) + ConvertAll(codec, rest);
        DecodePlain(codec, ms[0], tail);
        assert ConvertAll(codec, ms) == ConvertMessage(codec, ms[0]) + tail;
        assert ms[1..][1..] == rest;
      } else {
        PairedDrop(ms, 1);
        RoundTrip(codec, ms[1..]);
        DecodePlain(codec, ms[0], ConvertAll(codec, ms[1..]));
      }
    }
  }

  lemma DecodeNothing(codec: Codec)
    ensures DecodeAll(codec, []) == []
  {
  }

  // ----- the answer of a completion -----

  datatype OpenAiChoice =
    OpenAiChoice(content: Option<string>, toolCalls: Option<seq<OpenAiToolCall>>, finishReason: Option<string>)

  datatype CompletionResponse = CompletionResponse(content: seq<ContentBlock>, stopReason: Option<string>)

  function StopReason(finish: Option<string>): Option<string> {
    match finish
    case None => None
    case Some(r) =>
      Some(if r == "tool_calls" then "tool_use" else if r == "stop" then "end_turn"
           else if r == "length" then "max_tokens" else r)
  }

  lemma UsesNext(codec: Codec, calls: seq<OpenAiToolCall>, i: nat)
    requires i < |calls|
    ensures UsesFrom(codec, calls[i..])
            == [ToolUse(calls[i].id, calls[i].name, codec.ParseOrNull(calls[i].arguments))] + UsesFrom(codec, calls[i + 1..])
  {
    assert calls[i..][0] == calls[i] && calls[i..][1..] == calls[i + 1..];
  }

  lemma UsesNone(codec: Codec)
    ensures UsesFrom(codec, []) == []
  {
  }

  /** `openai_choice_to_completion` */
  method OpenAiChoiceToCompletion(codec: Codec, choice: OpenAiChoice) returns (r: CompletionResponse)
    ensures r.stopReason == StopReason(choice.finishReason)
    ensures r.content == AssistantBlocks("", TextOrEmpty(choice.content),
                                         UsesFrom(codec, if choice.toolCalls.Some? then choice.toolCalls.value else []))
  {
    hide UsesFrom;
    UsesNone(codec);
    var content: seq<ContentBlock> := [];
    if choice.content.Some? && choice.content.value != "" {
      content := content + [TextBlock(choice.content.value)];
    }
    if choice.toolCalls.Some? {
      var calls := choice.toolCalls.value;
      ghost var text := content;
      var i := 0;
      assert calls[0..] == calls;
      while i < |calls|
        invariant 0 <= i <= |calls|
        invariant text + UsesFrom(codec, calls) == content + UsesFrom(codec, calls[i..])
      {
        UsesNext(codec, calls, i);
        content := content + [ToolUse(calls[i].id, calls[i].name, codec.ParseOrNull(calls[i].arguments))];
        i := i + 1;
      }
      assert calls[i..] == [];
    }
    var stopReason := choice.finishReason;
    if stopReason == Some("tool_calls") {
      stopReason := Some("tool_use");
    } else if stopReason == Some("stop") {
      stopReason := Some("end_turn");
    } else if stopReason == Some("length") {
      stopReason := Some("max_tokens");
    }
    r := CompletionResponse(content, stopReason);
  }

  function Reparsed(codec: Codec, calls: seq<OpenAiToolCall>): seq<OpenAiToolCall> {
    if calls == [] then []
    else [calls[0].(arguments := codec.render(codec.ParseOrNull(calls[0].arguments)))] + Reparsed(codec, calls[1..])
  }

  lemma {:induction false} UsesAgain(codec: Codec, calls: seq<OpenAiToolCall>)
    ensures CallsIn(codec, UsesFrom(codec, calls)) == Reparsed(codec, calls)
    ensures Texts(UsesFrom(codec, calls)) == [] && ResultIds(UsesFrom(codec, calls)) == []
    ensures Thoughts(UsesFrom(codec, calls)) == []
  {
    if calls != [] {
      UsesAgain(codec, calls[1..]);
      assert UsesFrom(codec, calls)[1..] == UsesFrom(codec, calls[1..]);
    }
  }

  /** Text in front of tool uses is all that is said with them. */
  lemma SaidBeforeUses(codec: Codec, text: string, uses: seq<ContentBlock>)
    requires Texts(uses) == [] && Thoughts(uses) == [] && ResultIds(uses) == []
    ensures var content := AssistantBlocks("", text, uses);
            && JoinFrom("", Texts(content)) == text && JoinFrom("", Thoughts(content)) == ""
            && CallsIn(codec, content) == CallsIn(codec, uses) && ResultIds(content) == []
  {
    var content := AssistantBlocks("", text, uses);
    NoBlocks(codec, "");
    if text == "" {
      assert content == uses;
    } else {
      assert content == [TextBlock(text)] + uses;
      assert content[0..] == content && content[1..] == uses;
      NextBlock(codec, content, 0);
      assert [text] + [] == [text];
      OnePart(text, [], "");
      assert AddPart("", text) == text && JoinFrom(text, []) == text;
    }
  }

  /** An answer sent back in the next request says the same text and makes the same calls. */
  lemma AnswerEchoes(codec: Codec, text: string, calls: seq<OpenAiToolCall>)
    ensures ConvertMessage(codec, ChatMessage(Assistant, AssistantBlocks("", text, UsesFrom(codec, calls))))
            == [OpenAiMessage("assistant", NonEmpty(text),
                              if calls == [] then None else Some(Reparsed(codec, calls)), None, None)]
  {
    hide JoinFrom, Texts, Thoughts, CallsIn, ResultsIn, ResultIds, UseIds, UsesFrom, AssistantBlocks;
    UsesAgain(codec, calls);
    SaidBeforeUses(codec, text, UsesFrom(codec, calls));
  }
}

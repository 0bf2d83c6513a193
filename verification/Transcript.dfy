/** Conversation transcripts, and the pairing of tool uses with tool results. */
module Transcript {
  import opened Text
  import opened Sequences
  import opened Json

  datatype Role = User | Assistant

  datatype ContentBlock =
    | TextBlock(text: string)
    | ToolUse(id: string, name: string, input: Json)
    | ToolResultBlock(toolUseId: string, content: string)
    | Thinking(thinking: string, signature: Option<string>)

  datatype ChatMessage = ChatMessage(role: Role, content: seq<ContentBlock>)

  datatype ToolTrace = ToolTrace(turn: nat, name: string, input: Json, output: string)

  /** The ids of the tools a message asks for, in order. */
  function UseIds(content: seq<ContentBlock>): seq<string> {
    if content == [] then []
    else (if content[0].ToolUse? then [content[0].id] else []) + UseIds(content[1..])
  }

  /** The ids a message answers, in order. */
  function ResultIds(content: seq<ContentBlock>): seq<string> {
    if content == [] then []
    else (if content[0].ToolResultBlock? then [content[0].toolUseId] else []) + ResultIds(content[1..])
  }

  predicate Asks(m: ChatMessage) {
    m.role.Assistant? && UseIds(m.content) != []
  }

  predicate Answers(m: ChatMessage) {
    m.role.User? && ResultIds(m.content) != []
  }

  /** `u` answers every tool use of `a`, once each, in the same order. */
  predicate Round(a: ChatMessage, u: ChatMessage) {
    a.role.Assistant? && u.role.User? && UseIds(a.content) == ResultIds(u.content)
  }

  predicate PairedAt(ms: seq<ChatMessage>, i: nat)
    requires i < |ms|
  {
    && (ms[i].role.User? ==> UseIds(ms[i].content) == [])
    && (Asks(ms[i]) ==> i + 1 < |ms| && Round(ms[i], ms[i + 1]))
    && (Answers(ms[i]) ==> i > 0 && Round(ms[i - 1], ms[i]))
  }

  /**
   * Every assistant message that uses tools is directly followed by the user message that answers
   * them, no other message answers tools, and users use none.
   */
  ghost predicate Paired(ms: seq<ChatMessage>) {
    forall i :: 0 <= i < |ms| ==> PairedAt(ms, i)
  }

  lemma PairedPlain(ms: seq<ChatMessage>, m: ChatMessage)
    requires Paired(ms)
    requires UseIds(m.content) == [] && ResultIds(m.content) == []
    ensures Paired(ms + [m])
  {
    var all := ms + [m];
    forall i | 0 <= i < |all|
      ensures PairedAt(all, i)
    {
      if i < |ms| {
        assert PairedAt(ms, i) && all[i] == ms[i];
      }
    }
  }

  lemma PairedRound(ms: seq<ChatMessage>, a: ChatMessage, u: ChatMessage)
    requires Paired(ms) && Round(a, u) && UseIds(u.content) == []
    ensures Paired(ms + [a, u])
  {
    var all := ms + [a, u];
    forall i | 0 <= i < |all|
      ensures PairedAt(all, i)
    {
      if i < |ms| {
        assert PairedAt(ms, i) && all[i] == ms[i];
      }
    }
  }

  /** Dropping a finished exchange from the front leaves a paired transcript. */
  lemma PairedDrop(ms: seq<ChatMessage>, n: nat)
    requires Paired(ms) && n <= |ms|
    requires n < |ms| ==> !Answers(ms[n])
    ensures Paired(ms[n..])
  {
    var rest := ms[n..];
    forall i | 0 <= i < |rest|
      ensures PairedAt(rest, i)
    {
      assert PairedAt(ms, n + i) && rest[i] == ms[n + i];
    }
  }

  // ----- joined text -----

  /** Add a part behind a blank line, unless nothing has been written yet. */
  function AddPart(acc: string, part: string): string {
    if acc == "" then part else acc + "\n\n" + part
  }

  function JoinFrom(acc: string, parts: seq<string>): string
    decreases |parts|
  {
    if parts == [] then acc else JoinFrom(AddPart(acc, parts[0]), parts[1..])
  }

  function DropEmptyHead(parts: seq<string>): seq<string> {
    if parts != [] && parts[0] == "" then DropEmptyHead(parts[1..]) else parts
  }

  function Separated(parts: seq<string>): string {
    if parts == [] then ""
    else if |parts| == 1 then parts[0]
    else parts[0] + "\n\n" + Separated(parts[1..])
  }

  /** Joining is: drop the empty parts in front, put a blank line between the others. */
  lemma {:induction false} JoinSeparates(parts: seq<string>)
    ensures JoinFrom("", parts) == Separated(DropEmptyHead(parts))
    decreases |parts|
  {
    if parts != [] {
      if parts[0] == "" {
        JoinSeparates(parts[1..]);
      } else {
        JoinFromSeparates(parts[0], parts[1..]);
      }
    }
  }

  lemma {:induction false} JoinFromSeparates(acc: string, parts: seq<string>)
    requires acc != ""
    ensures JoinFrom(acc, parts) == Separated([acc] + parts)
    decreases |parts|
  {
    if parts != [] {
      var next := acc + "\n\n" + parts[0];
      JoinFromSeparates(next, parts[1..]);
      assert ([acc] + parts)[1..] == parts;
      assert ([next] + parts[1..])[1..] == parts[1..];
      if |parts| > 1 {
        assert next + "\n\n" + Separated(parts[1..])
            == acc + "\n\n" + (parts[0] + "\n\n" + Separated(parts[1..]));
      }
    } else {
      assert [acc] + parts == [acc];
    }
  }

  function Texts(content: seq<ContentBlock>): seq<string> {
    if content == [] then []
    else (if content[0].TextBlock? then [content[0].text] else []) + Texts(content[1..])
  }

  function Thoughts(content: seq<ContentBlock>): seq<string> {
    if content == [] then []
    else (if content[0].Thinking? then [content[0].thinking] else []) + Thoughts(content[1..])
  }

  /** An assistant message as the agent builds it: thinking first, then text, then tool uses. */
  function AssistantBlocks(thinking: string, text: string, uses: seq<ContentBlock>): seq<ContentBlock> {
    (if thinking == "" then [] else [Thinking(thinking, None)])
    + (if text == "" then [] else [TextBlock(text)])
    + uses
  }

  // ----- answering the tool uses of a message -----

  /** What the k-th tool use of a turn came to. */
  type Tools = (nat, nat) -> Result<string, string>

  function Reply(outcome: Result<string, string>): string {
    match outcome
    case Ok(s) => s
    case Err(e) => "ERROR: " + e
  }

  /** The result blocks for a message's tool uses, from the k-th on. */
  function Results(content: seq<ContentBlock>, tools: Tools, turn: nat, k: nat): (r: seq<ContentBlock>)
    ensures ResultIds(r) == UseIds(content) && UseIds(r) == []
    ensures r == [] <==> UseIds(content) == []
    decreases |content|
  {
    if content == [] then []
    else if content[0].ToolUse? then
      [ToolResultBlock(content[0].id, Reply(tools(turn, k)))] + Results(content[1..], tools, turn, k + 1)
    else Results(content[1..], tools, turn, k)
  }

  function Traces(content: seq<ContentBlock>, tools: Tools, turn: nat, k: nat): seq<ToolTrace>
    decreases |content|
  {
    if content == [] then []
    else if content[0].ToolUse? then
      [ToolTrace(turn, content[0].name, content[0].input, Reply(tools(turn, k)))]
      + Traces(content[1..], tools, turn, k + 1)
    else Traces(content[1..], tools, turn, k)
  }

  /** The i-th use, its answer and its trace. */
  ghost predicate AnsweredUse(content: seq<ContentBlock>, id: string, output: string, turn: nat, result: ContentBlock,
                              trace: ToolTrace) {
    && result == ToolResultBlock(id, output)
    && trace.output == output && trace.turn == turn
    && ToolUse(id, trace.name, trace.input) in content
  }

  lemma FirstBlockAnswered(content: seq<ContentBlock>, tools: Tools, turn: nat, k: nat)
    requires content != []
    ensures var b, rest := content[0], content[1..];
            if b.ToolUse? then
              && UseIds(content) == [b.id] + UseIds(rest)
              && Results(content, tools, turn, k)
                 == [ToolResultBlock(b.id, Reply(tools(turn, k)))] + Results(rest, tools, turn, k + 1)
              && Traces(content, tools, turn, k)
                 == [ToolTrace(turn, b.name, b.input, Reply(tools(turn, k)))] + Traces(rest, tools, turn, k + 1)
            else
              && UseIds(content) == UseIds(rest)
              && Results(content, tools, turn, k) == Results(rest, tools, turn, k)
              && Traces(content, tools, turn, k) == Traces(rest, tools, turn, k)
  {
  }

  lemma {:induction false} UsesAnswered(content: seq<ContentBlock>, tools: Tools, turn: nat, k: nat, i: nat)
    requires i < |UseIds(content)|
    ensures var results, trace := Results(content, tools, turn, k), Traces(content, tools, turn, k);
            && |results| == |UseIds(content)| == |trace|
            && AnsweredUse(content, UseIds(content)[i], Reply(tools(turn, k + i)), turn, results[i], trace[i])
    decreases |content|
  {
    hide Reply, Results, Traces;
    var b, rest := content[0], content[1..];
    AsManyTraces(content, tools, turn, k);
    FirstBlockAnswered(content, tools, turn, k);
    if !b.ToolUse? {
      UsesAnswered(rest, tools, turn, k, i);
    } else if i > 0 {
      UsesAnswered(rest, tools, turn, k + 1, i - 1);
    }
  }

  /**
   * What the model is sent, and what the trace keeps, of the i-th tool use: its output as it is, or
   * its error marked as one, beside the id, the name and the input it was called with.
   */
  lemma OutputsAreSent(content: seq<ContentBlock>, tools: Tools, turn: nat, i: nat)
    requires i < |UseIds(content)|
    ensures var results, trace := Results(content, tools, turn, 0), Traces(content, tools, turn, 0);
            && |results| == |UseIds(content)| == |trace|
            && (match tools(turn, i)
                case Ok(s) => AnsweredUse(content, UseIds(content)[i], s, turn, results[i], trace[i])
                case Err(e) => AnsweredUse(content, UseIds(content)[i], "ERROR: " + e, turn, results[i], trace[i]))
  {
    hide Results, Traces, UseIds, AnsweredUse;
    UsesAnswered(content, tools, turn, 0, i);
  }

  lemma {:induction false} AsManyTraces(content: seq<ContentBlock>, tools: Tools, turn: nat, k: nat)
    ensures |Results(content, tools, turn, k)| == |UseIds(content)| == |Traces(content, tools, turn, k)|
    decreases |content|
  {
    if content != [] {
      AsManyTraces(content[1..], tools, turn, if content[0].ToolUse? then k + 1 else k);
    }
  }

  /** The next request after a turn that used tools: the model's message, then all its answers. */
  function NextRequest(ms: seq<ChatMessage>, content: seq<ContentBlock>, tools: Tools, turn: nat): seq<ChatMessage> {
    ms + [ChatMessage(Assistant, content), ChatMessage(User, Results(content, tools, turn, 0))]
  }

  lemma NextRequestPaired(ms: seq<ChatMessage>, content: seq<ContentBlock>, tools: Tools, turn: nat)
    requires Paired(ms)
    ensures Paired(NextRequest(ms, content, tools, turn))
  {
    PairedRound(ms, ChatMessage(Assistant, content), ChatMessage(User, Results(content, tools, turn, 0)));
  }

  /** Each request extends the one before, and every one of them is paired. */
  ghost predicate PairedRun(requests: seq<seq<ChatMessage>>) {
    && (forall k :: 0 <= k < |requests| ==> Paired(requests[k]))
    && (forall k :: 0 < k < |requests| ==> requests[k - 1] <= requests[k])
  }

  /**
   * The tool loop shared by the agents: run each tool use of a message, keep its answer and its
   * trace, and join the text onto `text0`.
   */
  method AnswerTools(content: seq<ContentBlock>, tools: Tools, turn: nat, text0: string)
    returns (text: string, results: seq<ContentBlock>, trace: seq<ToolTrace>)
    ensures text == JoinFrom(text0, Texts(content))
    ensures results == Results(content, tools, turn, 0) && trace == Traces(content, tools, turn, 0)
  {
    hide JoinFrom, Texts, Results, Traces, UseIds, ResultIds;
    text, results, trace := text0, [], [];
    var k := 0;
    var i := 0;
    assert content[0..] == content;
    while i < |content|
      invariant 0 <= i <= |content|
      invariant JoinFrom(text0, Texts(content)) == JoinFrom(text, Texts(content[i..]))
      invariant Results(content, tools, turn, 0) == results + Results(content[i..], tools, turn, k)
      invariant Traces(content, tools, turn, 0) == trace + Traces(content[i..], tools, turn, k)
    {
      BlockAnswered(content, tools, turn, i, k, text);
      match content[i] {
        case TextBlock(t) =>
          assert "" + t == t;
          if text != "" {
            text := text + "\n\n";
          }
          text := text + t;
        case ToolUse(id, name, input) =>
          var output := match tools(turn, k) case Ok(s) => s case Err(e) => "ERROR: " + e;
          Regroup(trace, [ToolTrace(turn, name, input, output)], Traces(content[i + 1..], tools, turn, k + 1));
          Regroup(results, [ToolResultBlock(id, output)], Results(content[i + 1..], tools, turn, k + 1));
          trace := trace + [ToolTrace(turn, name, input, output)];
          results := results + [ToolResultBlock(id, output)];
          k := k + 1;
        case ToolResultBlock(_, _) =>
        case Thinking(_, _) =>
      }
      i := i + 1;
    }
    assert content[i..] == [];
    NothingAnswered(tools, turn, k, text);
  }

  lemma NothingAnswered(tools: Tools, turn: nat, k: nat, text: string)
    ensures JoinFrom(text, Texts([])) == text && Results([], tools, turn, k) == [] && Traces([], tools, turn, k) == []
  {
  }

  /** What one block adds to the joined text, the results and the trace. */
  lemma BlockAnswered(content: seq<ContentBlock>, tools: Tools, turn: nat, i: nat, k: nat, text: string)
    requires i < |content|
    ensures var b, rest := content[i], content[i + 1..];
            && JoinFrom(text, Texts(content[i..]))
               == JoinFrom(if b.TextBlock? then AddPart(text, b.text) else text, Texts(rest))
            && Results(content[i..], tools, turn, k)
               == (if b.ToolUse? then [ToolResultBlock(b.id, Reply(tools(turn, k)))] + Results(rest, tools, turn, k + 1)
                   else Results(rest, tools, turn, k))
            && Traces(content[i..], tools, turn, k)
               == (if b.ToolUse? then [ToolTrace(turn, b.name, b.input, Reply(tools(turn, k)))]
                                      + Traces(rest, tools, turn, k + 1)
                   else Traces(rest, tools, turn, k))
  {
    var b, rest := content[i], content[i + 1..];
    assert content[i..][0] == b && content[i..][1..] == rest;
    if b.TextBlock? {
      assert Texts(content[i..]) == [b.text] + Texts(rest);
      assert ([b.text] + Texts(rest))[1..] == Texts(rest);
    } else {
      assert Texts(content[i..]) == Texts(rest);
    }
  }
}

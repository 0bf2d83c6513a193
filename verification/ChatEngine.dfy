/** The tool loops that wait for whole completions: `run_agent` and `run_chat_agent`. */
module ChatEngine {
  import opened Text
  import opened Transcript

  const ENGINE_MAX_TURNS := 8
  const CHAT_MAX_TURNS := 16

  /** What the model answers to the request of a turn. */
  type Model = nat -> Result<seq<ContentBlock>, string>

  datatype AgentResult = AgentResult(turns: nat, text: string, trace: seq<ToolTrace>)

  datatype ChatRole = HumanTurn | AgentTurn

  datatype ChatTurn = ChatTurn(role: ChatRole, text: string)

  function HistoryMessage(t: ChatTurn): ChatMessage {
    ChatMessage(if t.role.AgentTurn? then Assistant else User, [TextBlock(t.text)])
  }

  /** The first request: the history as plain messages, then the new message. */
  function Opening(history: seq<ChatTurn>, newMessage: string): (r: seq<ChatMessage>)
    ensures |r| == |history| + 1
    ensures forall i :: 0 <= i < |history| ==> r[i] == HistoryMessage(history[i])
    ensures r[|history|] == ChatMessage(User, [TextBlock(newMessage)])
  {
    seq(|history|, i requires 0 <= i < |history| => HistoryMessage(history[i]))
    + [ChatMessage(User, [TextBlock(newMessage)])]
  }

  /** The history keeps its speakers: what the agent said is the assistant's, anything else the user's. */
  lemma HistoryKept(history: seq<ChatTurn>, newMessage: string, i: nat)
    requires i < |history|
    ensures var m := Opening(history, newMessage)[i];
            && m.content == [TextBlock(history[i].text)]
            && (m.role == Assistant <==> history[i].role == AgentTurn) && (m.role == User <==> history[i].role == HumanTurn)
  {
  }

  lemma OpeningPaired(history: seq<ChatTurn>, newMessage: string)
    ensures Paired(Opening(history, newMessage))
  {
    var ms := Opening(history, newMessage);
    forall i | 0 <= i < |ms|
      ensures PairedAt(ms, i)
    {
      PlainIds(ms[i].content[0].text);
    }
  }

  lemma PlainIds(text: string)
    ensures UseIds([TextBlock(text)]) == [] && ResultIds([TextBlock(text)]) == []
  {
    assert [TextBlock(text)][1..] == [];
  }

  /** Turn k used tools, and request k+1 is request k, the model's message, and all the answers. */
  predicate Continues(requests: seq<seq<ChatMessage>>, model: Model, tools: Tools, k: nat)
    requires k + 1 < |requests|
  {
    && model(k).Ok?
    && UseIds(model(k).value) != []
    && requests[k + 1] == NextRequest(requests[k], model(k).value, tools, k)
  }

  /** The requests of a run, from its first one. */
  ghost predicate Run(requests: seq<seq<ChatMessage>>, opening: seq<ChatMessage>, model: Model, tools: Tools) {
    && requests != []
    && requests[0] == opening
    && forall k :: 0 <= k < |requests| - 1 ==> Continues(requests, model, tools, k)
  }

  /** A run ends at the first turn without tool use, at the first model error, or out of turns. */
  ghost predicate Ends(requests: seq<seq<ChatMessage>>, model: Model, maxTurns: nat, ok: bool) {
    && 1 <= |requests| <= maxTurns
    && var last := model(|requests| - 1);
       if ok then last.Ok? && UseIds(last.value) == []
       else last.Err? || (|requests| == maxTurns && UseIds(last.value) != [])
  }

  /** The texts of the first n turns, in order. */
  function RunTexts(model: Model, n: nat): seq<string> {
    if n == 0 then []
    else RunTexts(model, n - 1) + match model(n - 1) case Ok(content) => Texts(content) case Err(_) => []
  }

  function RunTrace(model: Model, tools: Tools, n: nat): seq<ToolTrace> {
    if n == 0 then []
    else
      RunTrace(model, tools, n - 1)
      + match model(n - 1) case Ok(content) => Traces(content, tools, n - 1, 0) case Err(_) => []
  }

  lemma {:induction false} JoinConcat(acc: string, a: seq<string>, b: seq<string>)
    ensures JoinFrom(acc, a + b) == JoinFrom(JoinFrom(acc, a), b)
    decreases |a|
  {
    if a == [] {
      assert a + b == b;
    } else {
      assert (a + b)[1..] == a[1..] + b;
      JoinConcat(AddPart(acc, a[0]), a[1..], b);
    }
  }

  /** Every run keeps its requests paired, whatever the model and the tools do. */
  lemma {:induction false} RunIsPaired(requests: seq<seq<ChatMessage>>, opening: seq<ChatMessage>, model: Model,
        tools: Tools)
    requires Run(requests, opening, model, tools) && Paired(opening)
    ensures PairedRun(requests)
    decreases |requests|
  {
    var last := |requests| - 1;
    if last > 0 {
      var before := requests[..last];
      forall k | 0 <= k < |before| - 1
        ensures Continues(before, model, tools, k)
      {
        assert Continues(requests, model, tools, k);
      }
      RunIsPaired(before, opening, model, tools);
      assert Continues(requests, model, tools, last - 1);
      assert before[last - 1] == requests[last - 1];
      NextRequestPaired(requests[last - 1], model(last - 1).value, tools, last - 1);
      forall k | 0 <= k < |requests|
        ensures Paired(requests[k])
      {
        if k < last {
          assert before[k] == requests[k];
        }
      }
      forall k | 0 < k < |requests|
        ensures requests[k - 1] <= requests[k]
      {
        if k < last {
          assert before[k] == requests[k] && before[k - 1] == requests[k - 1];
        }
      }
    }
  }

  /** `run_agent`: text is joined over all turns. */
  method RunAgent(model: Model, tools: Tools, userMessage: string)
    returns (r: Result<AgentResult, string>, requests: seq<seq<ChatMessage>>)
    ensures Run(requests, Opening([], userMessage), model, tools) && PairedRun(requests)
    ensures Ends(requests, model, 8, r.Ok?)
    ensures r.Ok? ==> var n := |requests|;
                      r.value == AgentResult(n, JoinFrom("", RunTexts(model, n)), RunTrace(model, tools, n))
  {
    hide JoinFrom, Texts, Results, Traces, Paired, PairedRun, Run, RunTexts, RunTrace;
    OpeningPaired([], userMessage);
    RunStarts(Opening([], userMessage), model, tools);
    var messages := [ChatMessage(User, [TextBlock(userMessage)])];
    assert messages == Opening([], userMessage);
    requests := [];
    var trace: seq<ToolTrace> := [];
    var finalText := "";
    NoParts(model, tools);
    assert [] + [messages] == [messages];
    for turn := 0 to ENGINE_MAX_TURNS
      invariant |requests| == turn
      invariant Run(requests + [messages], Opening([], userMessage), model, tools)
      invariant turn > 0 ==> Run(requests, Opening([], userMessage), model, tools) && PairedRun(requests)
      invariant turn > 0 ==> model(turn - 1).Ok? && UseIds(model(turn - 1).value) != []
      invariant finalText == JoinFrom("", RunTexts(model, turn)) && trace == RunTrace(model, tools, turn)
    {
      requests := requests + [messages];
      RunIsPaired(requests, Opening([], userMessage), model, tools);
      var resp := model(turn);
      if resp.Err? {
        return Err(resp.error), requests;
      }
      messages := messages + [ChatMessage(Assistant, resp.value)];
      OneMoreTurn(model, tools, turn);
      var text, toolResults, turnTrace := AnswerTools(resp.value, tools, turn, finalText);
      finalText, trace := text, trace + turnTrace;
      if toolResults == [] {
        return Ok(AgentResult(turn + 1, finalText, trace)), requests;
      }
      assert messages + [ChatMessage(User, toolResults)] == NextRequest(requests[turn], resp.value, tools, turn);
      messages := messages + [ChatMessage(User, toolResults)];
      RunGrows(requests, messages, Opening([], userMessage), model, tools);
    }
    return Err("agent exceeded MAX_TURNS without finishing"), requests;
  }

  lemma RunStarts(opening: seq<ChatMessage>, model: Model, tools: Tools)
    ensures Run([opening], opening, model, tools)
  {
  }

  lemma NoParts(model: Model, tools: Tools)
    ensures JoinFrom("", RunTexts(model, 0)) == "" && RunTrace(model, tools, 0) == []
  {
  }

  lemma OneMoreTurn(model: Model, tools: Tools, turn: nat)
    requires model(turn).Ok?
    ensures JoinFrom("", RunTexts(model, turn + 1)) == JoinFrom(JoinFrom("", RunTexts(model, turn)), Texts(model(turn).value))
    ensures RunTrace(model, tools, turn + 1) == RunTrace(model, tools, turn) + Traces(model(turn).value, tools, turn, 0)
  {
    JoinConcat("", RunTexts(model, turn), Texts(model(turn).value));
  }

  lemma RunGrows(requests: seq<seq<ChatMessage>>, next: seq<ChatMessage>,
        opening: seq<ChatMessage>, model: Model, tools: Tools)
    requires Run(requests, opening, model, tools)
    requires var k := |requests| - 1;
             && model(k).Ok? && UseIds(model(k).value) != []
             && next == NextRequest(requests[k], model(k).value, tools, k)
    ensures Run(requests + [next], opening, model, tools)
  {
    var all := requests + [next];
    forall k | 0 <= k < |all| - 1
      ensures Continues(all, model, tools, k)
    {
      if k < |requests| - 1 {
        assert Continues(requests, model, tools, k);
      }
    }
  }

  /** `run_chat_agent`: the reply is the text of the last turn alone. */
  method RunChatAgent(model: Model, tools: Tools, history: seq<ChatTurn>, newMessage: string)
    returns (r: Result<AgentResult, string>, requests: seq<seq<ChatMessage>>)
    ensures Run(requests, Opening(history, newMessage), model, tools) && PairedRun(requests)
    ensures Ends(requests, model, 16, r.Ok?)
    ensures r.Ok? ==> var n := |requests|;
                      r.value == AgentResult(n, JoinFrom("", Texts(model(n - 1).value)), RunTrace(model, tools, n))
  {
    hide JoinFrom, Texts, Results, Traces, Paired, PairedRun, Run, RunTrace, Opening;
    RunStarts(Opening(history, newMessage), model, tools);
    OpeningPaired(history, newMessage);
    var messages := Opening(history, newMessage);
    requests := [];
    var trace: seq<ToolTrace> := [];
    NoParts(model, tools);
    assert [] + [messages] == [messages];
    for turn := 0 to CHAT_MAX_TURNS
      invariant |requests| == turn
      invariant Run(requests + [messages], Opening(history, newMessage), model, tools)
      invariant turn > 0 ==> Run(requests, Opening(history, newMessage), model, tools) && PairedRun(requests)
      invariant turn > 0 ==> model(turn - 1).Ok? && UseIds(model(turn - 1).value) != []
      invariant trace == RunTrace(model, tools, turn)
    {
      requests := requests + [messages];
      RunIsPaired(requests, Opening(history, newMessage), model, tools);
      var resp := model(turn);
      if resp.Err? {
        return Err(resp.error), requests;
      }
      messages := messages + [ChatMessage(Assistant, resp.value)];
      OneMoreTurn(model, tools, turn);
      var thisTurnText, toolResults, turnTrace := AnswerTools(resp.value, tools, turn, "");
      trace := trace + turnTrace;
      if toolResults == [] {
        return Ok(AgentResult(turn + 1, thisTurnText, trace)), requests;
      }
      assert messages + [ChatMessage(User, toolResults)] == NextRequest(requests[turn], resp.value, tools, turn);
      messages := messages + [ChatMessage(User, toolResults)];
      RunGrows(requests, messages, Opening(history, newMessage), model, tools);
    }
    return Err("chat agent exceeded MAX_TURNS without finishing"), requests;
  }
}

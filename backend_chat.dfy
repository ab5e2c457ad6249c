/** The backend's `POST /api/v1/chat` handler: it flattens the paired
    history into role-tagged messages, hands them with the new message to
    the agent, and turns any exception into a fixed reply. The agent itself
    (the language model and its tools) is a parameter. */
module BackendChat {

  import opened ChatProtocol

  /** The role tags of the flattened history. */
  datatype Speaker = Human | Ai

  type HistoryEntry = (Speaker, string)

  /** How the awaited agent invocation ended: with an `output`, or by
      raising an exception. */
  datatype AgentResult = Output(output: string) | Raised

  const ErrorReply: string := "Sorry, I encountered an error. Please try again."

  /** Each pair becomes a human entry followed by an ai entry, in order. */
  function Flattened(chatHistory: seq<HistoryPair>): seq<HistoryEntry>
  {
    if chatHistory == [] then []
    else
      var last := chatHistory[|chatHistory| - 1];
      Flattened(chatHistory[..|chatHistory| - 1]) + [(Human, last.0), (Ai, last.1)]
  }

  /** Flattening k pairs gives 2k entries; entry 2j is the j-th human text and
      entry 2j+1 the j-th ai text, so the roles alternate starting with
      human. */
  lemma {:induction false} FlattenedShape(chatHistory: seq<HistoryPair>)
    ensures |Flattened(chatHistory)| == 2 * |chatHistory|
    ensures forall j :: 0 <= j < |chatHistory| ==>
      && Flattened(chatHistory)[2 * j] == (Human, chatHistory[j].0)
      && Flattened(chatHistory)[2 * j + 1] == (Ai, chatHistory[j].1)
  {
    if chatHistory != [] {
      var init := chatHistory[..|chatHistory| - 1];
      FlattenedShape(init);
      forall j | 0 <= j < |chatHistory|
        ensures Flattened(chatHistory)[2 * j] == (Human, chatHistory[j].0)
        ensures Flattened(chatHistory)[2 * j + 1] == (Ai, chatHistory[j].1)
      {
        if j < |init| {
          assert chatHistory[j] == init[j];
        }
      }
    }
  }

  /** The `for human_msg, ai_msg in request.chat_history` loop. */
  method FlattenHistory(chatHistory: seq<HistoryPair>) returns (history: seq<HistoryEntry>)
    ensures history == Flattened(chatHistory)
  {
    history := [];
    for j := 0 to |chatHistory|
      invariant history == Flattened(chatHistory[..j])
    {
      var (humanMsg, aiMsg) := chatHistory[j];
      history := history + [(Human, humanMsg)];
      history := history + [(Ai, aiMsg)];
      assert chatHistory[..j + 1][..j] == chatHistory[..j];
    }
    assert chatHistory[..|chatHistory|] == chatHistory;
  }

  /** The `chat` handler. On success the reply wraps the agent's output
      unchanged; any exception becomes the fixed error reply and nothing
      propagates. The agent sees the new message and the flattened
      history. */
  method Chat(request: ChatRequest, agent: (string, seq<HistoryEntry>) -> AgentResult)
    returns (response: ChatResponse)
    ensures agent(request.message, Flattened(request.chat_history)).Raised? ==>
      response == ChatResponse(ErrorReply)
    ensures agent(request.message, Flattened(request.chat_history)).Output? ==>
      response == ChatResponse(agent(request.message, Flattened(request.chat_history)).output)
  {
    var history := FlattenHistory(request.chat_history);
    match agent(request.message, history) {
      case Output(output) =>
        response := ChatResponse(output);
      case Raised =>
        response := ChatResponse(ErrorReply);
    }
  }

  /** A request whose `chat_history` is omitted gets the empty default, and
      the agent then sees no history at all. */
  lemma OmittedHistoryIsEmpty(message: string)
    ensures Flattened(ChatRequest(message).chat_history) == []
  {
  }
}

/** The wire shapes of `POST /api/v1/chat`: the JSON body the chat client
    sends and the Pydantic models the backend validates it against. */
module ChatProtocol {

  /** One completed exchange `[userText, agentText]`, a `Tuple[str, str]`
      on the backend side. */
  type HistoryPair = (string, string)

  /** `ChatRequest`: an omitted `chat_history` defaults to the empty list. */
  datatype ChatRequest = ChatRequest(message: string, chat_history: seq<HistoryPair> := [])

  /** `ChatResponse`: the only field the client reads. */
  datatype ChatResponse = ChatResponse(response: string)
}

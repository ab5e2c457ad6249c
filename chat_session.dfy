/** The chat client's submit cycle: the `messages`, `input` and `isLoading`
    state and the two halves of `handleSubmit`, the synchronous part up to
    the request (`Begin`) and the continuation that runs once the request
    has settled (`Complete`). */
module ChatSession {

  import opened Wrappers
  import opened ChatProtocol
  import opened Transcript

  // ---------------------------------------------------------------------
  // String.prototype.trim
  // ---------------------------------------------------------------------

  /** ECMAScript WhiteSpace and LineTerminator code points, the characters
      `trim` strips. */
  predicate IsWhiteSpace(c: char)
  {
    || c == ' ' || c == '\t' || c == '\n' || c == '\r'
    || c == '\U{000B}' || c == '\U{000C}' || c == '\U{00A0}' || c == '\U{1680}'
    || ('\U{2000}' <= c <= '\U{200A}')
    || c == '\U{2028}' || c == '\U{2029}' || c == '\U{202F}' || c == '\U{205F}'
    || c == '\U{3000}' || c == '\U{FEFF}'
  }

  predicate IsBlank(s: string)
  {
    forall i :: 0 <= i < |s| ==> IsWhiteSpace(s[i])
  }

  /** Drops the leading white space: the result is a suffix of `s` that does
      not start with white space, and everything dropped is white space. */
  function TrimStart(s: string): (r: string)
    ensures |r| <= |s| && r == s[|s| - |r|..]
    ensures r == [] || !IsWhiteSpace(r[0])
    ensures forall i :: 0 <= i < |s| - |r| ==> IsWhiteSpace(s[i])
  {
    if s != [] && IsWhiteSpace(s[0]) then TrimStart(s[1..]) else s
  }

  /** Drops the trailing white space: the result is a prefix of `s` that
      does not end with white space, and everything dropped is white space. */
  function TrimEnd(s: string): (r: string)
    ensures |r| <= |s| && r == s[..|r|]
    ensures r == [] || !IsWhiteSpace(r[|r| - 1])
    ensures forall i :: |r| <= i < |s| ==> IsWhiteSpace(s[i])
  {
    if s != [] && IsWhiteSpace(s[|s| - 1]) then TrimEnd(s[..|s| - 1]) else s
  }

  function Trim(s: string): string
  {
    TrimEnd(TrimStart(s))
  }

  /** `!input.trim()` holds exactly for the empty and the all-white-space
      strings. */
  lemma TrimEmptyIffBlank(s: string)
    ensures Trim(s) == [] <==> IsBlank(s)
  {
  }

  // ---------------------------------------------------------------------
  // The outcome of the request
  // ---------------------------------------------------------------------

  /** How the awaited request settled. The three failures are the missing
      `NEXT_PUBLIC_BACKEND_URL`, a rejected `fetch` or unreadable JSON body,
      and a response whose `ok` is false. */
  datatype FetchOutcome =
    | BackendUrlMissing
    | TransportFailure
    | ServerError(statusText: string)
    | Replied(response: string)

  const Apology: string := "I'm having trouble connecting to my systems. Please try again in a moment."

  // ---------------------------------------------------------------------
  // The session state
  // ---------------------------------------------------------------------

  class Session {
    var messages: seq<Message>
    var input: string
    var isLoading: bool

    /** Each accepted submit appends one user message and sets the loading
        flag; each completion appends one agent message and clears it; and a
        submit is refused while loading. So the transcript alternates,
        starting with a user message, and it has an unanswered user message
        at its end exactly while loading. */
    ghost predicate Valid()
      reads this
    {
      Alternating(messages) && (isLoading <==> |messages| % 2 == 1)
    }

    constructor ()
      ensures Valid()
      ensures messages == [] && input == "" && !isLoading
    {
      messages := [];
      input := "";
      isLoading := false;
    }

    /** The input field's `onChange`. */
    method SetInput(text: string)
      requires Valid()
      modifies this`input
      ensures Valid() && input == text
    {
      input := text;
    }

    /** The synchronous part of `handleSubmit`. A blank input or a pending
        request makes it a no-op that sends nothing. Otherwise it appends the
        untrimmed input as a user message, clears the input, sets the loading
        flag and yields the request body, whose history is formatted from
        the transcript as it was before the new message. */
    method Begin() returns (request: Option<ChatRequest>)
      requires Valid()
      modifies this
      ensures Valid()
      ensures IsBlank(old(input)) || old(isLoading) ==>
        && request == None
        && messages == old(messages) && input == old(input) && isLoading == old(isLoading)
      ensures !IsBlank(old(input)) && !old(isLoading) ==>
        && messages == old(messages) + [Message(User, old(input))]
        && input == "" && isLoading
        && request == Some(ChatRequest(old(input), History(old(messages))))
      ensures request.Some? ==> 2 * |request.value.chat_history| == |old(messages)|
    {
      TrimEmptyIffBlank(input);
      if Trim(input) == [] || isLoading {
        return None;
      }
      var userMessage := Message(User, input);
      var history := FormatHistoryForAPI(messages);
      AlternatingHistory(messages);
      messages := messages + [userMessage];
      request := Some(ChatRequest(userMessage.content, history));
      input := "";
      isLoading := true;
    }

    /** The continuation of `handleSubmit`: whatever the outcome, exactly
        one agent message is appended (the reply on success, the fixed
        apology on any failure) and the loading flag is cleared. Nothing
        earlier in the transcript changes, nor does the input the user may
        have typed meanwhile. */
    method Complete(outcome: FetchOutcome)
      requires Valid() && isLoading
      modifies this
      ensures Valid() && !isLoading && input == old(input)
      ensures outcome.Replied? ==> messages == old(messages) + [Message(Agent, outcome.response)]
      ensures !outcome.Replied? ==> messages == old(messages) + [Message(Agent, Apology)]
    {
      var content: string;
      match outcome {
        case Replied(response) =>
          content := response;
        case _ =>
          content := Apology;
      }
      messages := messages + [Message(Agent, content)];
      isLoading := false;
    }
  }

  /** A conversation: "A" answered by "B", then "C" is sent with the history
      `[("A", "B")]`, and "D", typed while "C" is pending, is refused. */
  method ExampleConversation()
  {
    var session := new Session();
    session.SetInput("A");
    assert !IsWhiteSpace("A"[0]);
    var first := session.Begin();
    assert first == Some(ChatRequest("A", []));
    session.Complete(Replied("B"));
    session.SetInput("C");
    assert !IsWhiteSpace("C"[0]);
    var second := session.Begin();
    ExampleHistory();
    assert second == Some(ChatRequest("C", [("A", "B")]));
    session.SetInput("D");
    var third := session.Begin();
    assert third == None && session.input == "D";
    assert session.messages == [Message(User, "A"), Message(Agent, "B"), Message(User, "C")];
  }
}

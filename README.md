# Haven chat core, modelled in Dafny

Haven is a browser chat client for an AI real-estate assistant, with a small
Python backend. Almost all of it is user interface and language-model
plumbing. This project models its sequential core:

- **Transcript and history pairing** (`transcript.dfy`, module `Transcript`).
  The client keeps a list of `user`/`agent` messages. `formatHistoryForAPI`
  turns that list into `[userText, agentText]` pairs for the backend. It
  scans left to right, and a user message immediately followed by an agent
  message becomes a pair that consumes both. The method keeps the source's
  index loop. It is proved equal to `History`, which is proved to be exactly
  the list of all user->agent adjacencies, in order and never overlapping.
- **Submit cycle** (`chat_session.dfy`, class `ChatSession.Session`).
  `handleSubmit` is split at its `await`. `Begin` is the guard, the append of
  the user message, clearing the input, setting the loading flag and building
  the request. `Complete` is the continuation after the request settles: it
  appends one agent message (the reply or the fixed apology) and clears the
  loading flag. The network outcome is a `FetchOutcome` value. The class
  invariant is that the transcript alternates user/agent, starting with a
  user message, and that it has odd length exactly while loading.
- **Scorecard detection** (`scorecard.dfy`, module `Scorecard`). This is the
  greedy match of `/\{[\s\S]*\}/`, then a JSON parse, then the
  `type === 'property_scorecard'` test. `JSON.parse` is a function parameter
  that returns an optional parsed object.
- **Backend chat handler** (`backend_chat.dfy`, module `BackendChat`). The
  `for` loop turns `(human, ai)` pairs into an alternating role-tagged list.
  Any exception from the agent becomes the fixed error reply. The agent is a
  function parameter.
- **Mock tools** (`property_tools.dfy`, module `PropertyTools`). These are the
  keyword rule of `property_search` and the `maps_service`/`yelp_service`
  lookups over constant tables.
- `chat_protocol.dfy` holds the request/response shapes both sides share.
  `end_to_end.dfy` connects the client's history to what the backend
  reconstructs from it.

One might expect a failed request to leave two agent messages in a row.
The code does not do that. A failure appends the apology instead of the
reply (`ChatInterface.tsx:88-95`), and a submit is refused while a request
is pending (`ChatInterface.tsx:48`). So the transcript alternates. The model follows the code: `Session.Valid` states this
alternation and every operation preserves it.

## Model

| member | source | states |
|---|---|---|
| `Transcript.FormatHistoryForAPI` | frontend/src/components/chat/ChatInterface.tsx:22-31 | The index loop that skips past a consumed agent message returns exactly the pairing `History` of the transcript. |
| `Transcript.HistoryIsAllTurns` | frontend/src/components/chat/ChatInterface.tsx:24-28 | The consuming scan and a scan that consumes nothing give the same pairs: consuming the agent message never hides a user->agent adjacency. |
| `Transcript.HistoryPairsAreTurns` | frontend/src/components/chat/ChatInterface.tsx:24-28 | The history is `(ms[x].content, ms[x+1].content)` for exactly the positions `x` where a user message is immediately followed by an agent message. The pairs come in increasing order of `x`, and consecutive pairs are at least two positions apart, so none overlap. |
| `Transcript.HistoryLength` | frontend/src/components/chat/ChatInterface.tsx:22-31 | The number of pairs is at most half the number of messages. |
| `Transcript.UserOnlyHistoryIsEmpty` | frontend/src/components/chat/ChatInterface.tsx:22-31 | A transcript of user messages only, the empty one included, gives an empty history. |
| `Transcript.AlternatingHistory` | frontend/src/components/chat/ChatInterface.tsx:24-28 | A transcript alternating user, agent, ..., starting with user, gives exactly floor(n/2) pairs; pair k is messages 2k and 2k+1. |
| `Transcript.NewUserMessageNotInHistory` | frontend/src/components/chat/ChatInterface.tsx:56-61 | Appending an unanswered user message does not change the history, so the new message never appears in `chat_history`. |
| `Transcript.ExchangeExtendsHistory` | frontend/src/components/chat/ChatInterface.tsx:24-28 | A user message answered by an agent message adds exactly that pair at the end of the next history. |
| `Transcript.ExampleHistory` | frontend/src/components/chat/ChatInterface.tsx:22-31 | `[user "A", agent "B", user "C"]` gives `[("A", "B")]`. `ChatSession.ExampleConversation` replays the same conversation through `Begin` and `Complete`: "C" is sent with `[("A", "B")]`, and a "D" typed while "C" is pending is refused. |
| `ChatSession.TrimStart` | frontend/src/components/chat/ChatInterface.tsx:48 | The result is a suffix of the input that does not start with white space, and everything dropped is white space (the ECMAScript WhiteSpace and LineTerminator set). |
| `ChatSession.TrimEnd` | frontend/src/components/chat/ChatInterface.tsx:48 | The result is a prefix of the input that does not end with white space, and everything dropped is white space. |
| `ChatSession.TrimEmptyIffBlank` | frontend/src/components/chat/ChatInterface.tsx:48 | `input.trim()` is empty if and only if the input is empty or all white space. |
| `ChatSession.Session.constructor` | frontend/src/components/chat/ChatInterface.tsx:34-36 | A new session has no messages, an empty input, is not loading and satisfies the invariant. |
| `ChatSession.Session.SetInput` | frontend/src/components/chat/ChatInterface.tsx:166-167 | The input field holds the typed text; nothing else changes. |
| `ChatSession.Session.Begin` | frontend/src/components/chat/ChatInterface.tsx:47-61 | A blank input or a pending request changes nothing and sends no request. Otherwise the untrimmed input is appended as one user message, the input becomes `""`, loading becomes true, and the request carries that input and the history of the transcript as it was before the append. That history holds every earlier message, so twice its length equals the old transcript length. The invariant is preserved. |
| `ChatSession.Session.Complete` | frontend/src/components/chat/ChatInterface.tsx:64-99 | Exactly one agent message is appended: the reply on success, the fixed apology on a missing backend URL, a transport failure or a non-ok status. Loading becomes false. Earlier messages and the input are unchanged. The invariant is preserved. |
| `Scorecard.FirstIndexOf` | frontend/src/components/chat/ChatInterface.tsx:124 | The result is the first occurrence of the character at or after the start position, or none if it does not occur there. |
| `Scorecard.LastIndexOf` | frontend/src/components/chat/ChatInterface.tsx:124 | The result is the last occurrence of the character before the end position, or none if it does not occur there. |
| `Scorecard.JsonCandidate` | frontend/src/components/chat/ChatInterface.tsx:124-125 | There is a match exactly when some `}` follows some `{`. The match is the contiguous substring from a `{` to a `}` that contains every other such match: from the first `{` to the last `}`. |
| `Scorecard.Classify` | frontend/src/components/chat/ChatInterface.tsx:120-132 | A scorecard is produced if and only if the message is from the agent, the greedy match exists, the parser accepts it and its `type` is `"property_scorecard"`. The scorecard is then the parsed data. Anything else falls back to plain text. |
| `Scorecard.NoBracesMeansPlainText` | frontend/src/components/chat/ChatInterface.tsx:121-131 | Content without a `{` is never classified as a scorecard, whatever the parser does. |
| `Scorecard.EmbeddedObjectFound` | frontend/src/components/chat/ChatInterface.tsx:124 | When the prose before an object has no `{` and the prose after it has no `}`, the match is exactly the object. |
| `Scorecard.EmbeddedScorecard` | frontend/src/components/chat/ChatInterface.tsx:124-129 | An agent reply of prose containing no `{`, followed by an object that parses as a scorecard, is classified as that scorecard. |
| `Scorecard.TwoObjectsMergeIntoOneSpan` | frontend/src/components/chat/ChatInterface.tsx:124 | Two objects in one reply, with no `{` before the first and no `}` after the second, are matched as one span from the start of the first to the end of the second, with the prose between them. |
| `BackendChat.FlattenedShape` | backend/main.py:65-67 | Flattening k pairs gives 2k entries. Entry 2j is `("human", pair j's first text)` and entry 2j+1 is `("ai", pair j's second text)`. |
| `BackendChat.FlattenHistory` | backend/main.py:64-67 | The append loop produces exactly the flattened history. |
| `BackendChat.Chat` | backend/main.py:60-76 | If the agent returns an output, the response wraps it unchanged. If the agent raises, the response is exactly `"Sorry, I encountered an error. Please try again."`. The agent receives the message and the flattened history. |
| `BackendChat.OmittedHistoryIsEmpty` | backend/main.py:19-21 | A request without `chat_history` defaults to the empty list, so the agent sees no history. |
| `PropertyTools.PropertySearch` | backend/tools/property_tools.py:20-27 | The result is non-empty exactly when the lower-cased query contains both `"lake"` and `"mountain"`. It is then the single Aspen listing, and otherwise empty. |
| `PropertyTools.MapsService` | backend/tools/property_tools.py:30-33 | The result is non-empty exactly for the Aspen listing's address, where it is that table entry; it is `{}` for every other address. |
| `PropertyTools.YelpService` | backend/tools/property_tools.py:36-39 | The result is non-empty exactly for the Aspen listing's address, where it is that table entry; it is `{}` for every other address. |
| `PropertyTools.LowerIdempotent` | backend/tools/property_tools.py:25 | Lower-casing twice is lower-casing once. |
| `PropertyTools.SearchIgnoresCase` | backend/tools/property_tools.py:25 | A query and its lower-cased form give the same search result. |
| `PropertyTools.KeywordOrderIrrelevant` | backend/tools/property_tools.py:25 | A text with "lake" and a text with "mountain", joined in either order, find the Aspen listing. |
| `PropertyTools.FoundListingsHaveNeighbourhoodData` | backend/tools/property_tools.py:6-14 | Every listing the search returns has non-empty maps and reviews entries. |
| `PropertyTools.ExampleUpperCaseQuery` | backend/tools/property_tools.py:25-26 | `"LAKE AND MOUNTAIN VIEWS"` finds the Aspen listing. |
| `EndToEnd.BackendSeesWholeTranscript` | backend/main.py:64-67 | For a transcript as it stands between requests (alternating, even length), the backend's flattened history is the transcript itself, message by message, with user tagged human and agent tagged ai. |

## Left out

- Rendering is not modelled. That covers the JSX, styling, the auto-scroll effect and the welcome text (`ChatInterface.tsx:39-44`, `102-186`). The Enter-key handler and the submit button (`ChatInterface.tsx:168`, `172-180`) are left out too. The button's `disabled` condition is the same test as `Begin`'s guard.
- `fetch`, `response.json()` and `process.env` are I/O and are not modelled. Their combined effect is the `FetchOutcome` passed to `Complete`. A malformed response body counts as a transport failure.
- `ChatSession.Session.Complete` takes the reply as a string. A response body without a string `response` field is not modelled.
- `JSON.parse` is a foreign parser. It is a function parameter, and its result is reduced to the `type` member and the scorecard fields.
- Classification being deterministic needs no lemma: `Classify` is a function of the message and the parser.
- `Date.now()` message identifiers are clock reads and are not modelled.
- The language-model agent, prompt, CORS middleware, health route and `load_dotenv` are not modelled (`main.py:9-58`). The agent is a function parameter of `Chat`. `main.py:14` imports `find_properties` and `find_properties_with_criteria`, which `property_tools.py` does not define, so the backend and the tools are not linked.
- `BackendChat.Chat`: the case where the agent's result has no `output` key is not modelled. There `response.get("output")` gives `None`, and the response model rejects it outside the `try`.
- Flattening cannot raise here, because request validation guarantees string pairs. Only exceptions from the agent are modelled.
- `print` logging and the `@tool` decorator are not modelled.
- `PropertyTools.PropertySearch`: Python's full Unicode `str.lower` is modelled only for the characters whose lower case is an ASCII letter: A-Z and KELVIN SIGN. U+0130 lowers to `i` plus a combining dot. That `i` is always followed by the dot, while the `i` in "mountain" must be followed by `n`, so U+0130 can never complete a keyword. All other characters can never be part of a keyword match, so the keyword test is unaffected.
- `PropertyTools.MapsService` and `PropertyTools.YelpService` return dictionaries as values. In Python they return the table's own dictionary objects, which a caller could mutate. The tables are Dafny constants, so the lookups cannot modify them.
- JavaScript strings are UTF-16 code units. They are modelled as sequences of Unicode characters.
- React batches its state updates. They are modelled as taking effect at once. `setMessages(prev => ...)` becomes an append to the current transcript.
- `LifestyleScorecard.tsx`, `PropertyCard.tsx`, `layout.tsx`, `next.config.js` and the second `ChatInterface (2).tsx` are not part of this model. `types/index.ts` supplies only the shape of `PropertyScorecardData`.

/** The chat client's transcript and `formatHistoryForAPI`, which derives the
    paired-turn history the backend expects from the transcript. */
module Transcript {

  import opened ChatProtocol

  datatype Role = User | Agent

  /** A transcript entry. The `Date.now()` identifier is not modelled. */
  datatype Message = Message(role: Role, content: string)

  /** A user message at `i` immediately followed by an agent message. */
  predicate IsTurnAt(ms: seq<Message>, i: int)
  {
    0 <= i && i + 1 < |ms| && ms[i].role == User && ms[i + 1].role == Agent
  }

  function PairAt(ms: seq<Message>, i: nat): HistoryPair
    requires i + 1 < |ms|
  {
    (ms[i].content, ms[i + 1].content)
  }

  /** The history the scan produces from position `i` on: a matched pair
      consumes both messages, anything else is skipped one at a time. */
  function HistoryFrom(ms: seq<Message>, i: nat): seq<HistoryPair>
    decreases |ms| - i
  {
    if i >= |ms| then []
    else if IsTurnAt(ms, i) then [PairAt(ms, i)] + HistoryFrom(ms, i + 2)
    else HistoryFrom(ms, i + 1)
  }

  function History(ms: seq<Message>): seq<HistoryPair>
  {
    HistoryFrom(ms, 0)
  }

  /** `formatHistoryForAPI`: the index loop that bumps `i` past a matched
      agent message and pushes each pair. */
  method FormatHistoryForAPI(messages: seq<Message>) returns (history: seq<HistoryPair>)
    ensures history == History(messages)
  {
    history := [];
    var i := 0;
    while i < |messages|
      invariant 0 <= i <= |messages|
      invariant History(messages) == history + HistoryFrom(messages, i)
    {
      if messages[i].role == User && i + 1 < |messages| && messages[i + 1].role == Agent {
        history := history + [(messages[i].content, messages[i + 1].content)];
        i := i + 1;
      }
      i := i + 1;
    }
  }

  // ---------------------------------------------------------------------
  // An independent description: every user->agent adjacency, in order.
  // ---------------------------------------------------------------------

  /** Positions `x >= i` where a turn starts, in increasing order. */
  ghost function TurnStartsFrom(ms: seq<Message>, i: nat): seq<nat>
    decreases |ms| - i
  {
    if i >= |ms| then []
    else (if IsTurnAt(ms, i) then [i] else []) + TurnStartsFrom(ms, i + 1)
  }

  /** The pairs at those positions, scanning without consuming anything. */
  function TurnsFrom(ms: seq<Message>, i: nat): seq<HistoryPair>
    decreases |ms| - i
  {
    if i >= |ms| then []
    else (if IsTurnAt(ms, i) then [PairAt(ms, i)] else []) + TurnsFrom(ms, i + 1)
  }

  /** Consuming the agent message of a pair never hides a turn: an agent
      message cannot start one. */
  lemma {:induction false} HistoryIsAllTurns(ms: seq<Message>, i: nat)
    ensures HistoryFrom(ms, i) == TurnsFrom(ms, i)
    decreases |ms| - i
  {
    if i >= |ms| {
    } else if IsTurnAt(ms, i) {
      HistoryIsAllTurns(ms, i + 2);
      assert !IsTurnAt(ms, i + 1);
      assert TurnsFrom(ms, i + 1) == TurnsFrom(ms, i + 2);
    } else {
      HistoryIsAllTurns(ms, i + 1);
    }
  }

  lemma {:induction false} TurnStartsShape(ms: seq<Message>, i: nat)
    ensures |TurnStartsFrom(ms, i)| == |TurnsFrom(ms, i)|
    ensures forall x :: x in TurnStartsFrom(ms, i) <==> i <= x && IsTurnAt(ms, x)
    ensures forall k :: 0 <= k < |TurnStartsFrom(ms, i)| ==>
              IsTurnAt(ms, TurnStartsFrom(ms, i)[k]) &&
              TurnsFrom(ms, i)[k] == PairAt(ms, TurnStartsFrom(ms, i)[k])
    ensures forall a, b :: 0 <= a < b < |TurnStartsFrom(ms, i)| ==>
              TurnStartsFrom(ms, i)[a] < TurnStartsFrom(ms, i)[b]
    decreases |ms| - i
  {
    if i < |ms| {
      TurnStartsShape(ms, i + 1);
    }
  }

  /** The history is exactly the pairs `(ms[x].content, ms[x+1].content)` for
      the positions `x` where a user message is immediately followed by an
      agent message, in increasing order of `x`, and no two pairs overlap. */
  lemma HistoryPairsAreTurns(ms: seq<Message>)
    ensures var starts := TurnStartsFrom(ms, 0);
      && |History(ms)| == |starts|
      && (forall x :: x in starts <==> IsTurnAt(ms, x))
      && (forall k :: 0 <= k < |starts| ==>
            IsTurnAt(ms, starts[k]) && History(ms)[k] == PairAt(ms, starts[k]))
      && (forall a, b :: 0 <= a < b < |starts| ==> starts[a] + 2 <= starts[b])
  {
    var starts := TurnStartsFrom(ms, 0);
    HistoryIsAllTurns(ms, 0);
    TurnStartsShape(ms, 0);
    forall a, b | 0 <= a < b < |starts| ensures starts[a] + 2 <= starts[b] {
      assert IsTurnAt(ms, starts[a]) && IsTurnAt(ms, starts[b]);
    }
  }

  // ---------------------------------------------------------------------
  // Length and shape.
  // ---------------------------------------------------------------------

  lemma {:induction false} HistoryFromLength(ms: seq<Message>, i: nat)
    requires i <= |ms|
    ensures 2 * |HistoryFrom(ms, i)| <= |ms| - i
    decreases |ms| - i
  {
    if i < |ms| {
      if IsTurnAt(ms, i) {
        HistoryFromLength(ms, i + 2);
      } else {
        HistoryFromLength(ms, i + 1);
      }
    }
  }

  /** At most one pair per two messages. */
  lemma HistoryLength(ms: seq<Message>)
    ensures |History(ms)| <= |ms| / 2
  {
    HistoryFromLength(ms, 0);
  }

  lemma {:induction false} NoAgentFrom(ms: seq<Message>, i: nat)
    requires forall k :: 0 <= k < |ms| ==> ms[k].role == User
    ensures HistoryFrom(ms, i) == []
    decreases |ms| - i
  {
    if i < |ms| {
      NoAgentFrom(ms, i + 1);
    }
  }

  /** A transcript of user messages only (the empty one included) gives an
      empty history. */
  lemma UserOnlyHistoryIsEmpty(ms: seq<Message>)
    requires forall k :: 0 <= k < |ms| ==> ms[k].role == User
    ensures History(ms) == []
  {
    NoAgentFrom(ms, 0);
  }

  /** user, agent, user, agent, ... starting with a user message. */
  predicate Alternating(ms: seq<Message>)
  {
    forall k :: 0 <= k < |ms| ==> ms[k].role == (if k % 2 == 0 then User else Agent)
  }

  lemma {:induction false} AlternatingFrom(ms: seq<Message>, j: nat)
    requires Alternating(ms) && 2 * j <= |ms|
    ensures |HistoryFrom(ms, 2 * j)| == |ms| / 2 - j
    ensures forall k :: 0 <= k < |ms| / 2 - j ==>
              HistoryFrom(ms, 2 * j)[k] == PairAt(ms, 2 * (j + k))
    decreases |ms| - 2 * j
  {
    if 2 * j + 1 < |ms| {
      assert IsTurnAt(ms, 2 * j);
      AlternatingFrom(ms, j + 1);
      assert 2 * j + 2 == 2 * (j + 1);
      var h := HistoryFrom(ms, 2 * j);
      forall k | 0 <= k < |ms| / 2 - j ensures h[k] == PairAt(ms, 2 * (j + k)) {
        if k > 0 {
          assert h[k] == HistoryFrom(ms, 2 * (j + 1))[k - 1];
          assert 2 * (j + 1 + (k - 1)) == 2 * (j + k);
        }
      }
    } else if 2 * j < |ms| {
      assert !IsTurnAt(ms, 2 * j);
    }
  }

  /** A strictly alternating transcript of n messages, starting with a user
      message, gives exactly floor(n/2) pairs: the k-th is messages 2k, 2k+1. */
  lemma AlternatingHistory(ms: seq<Message>)
    requires Alternating(ms)
    ensures |History(ms)| == |ms| / 2
    ensures forall k :: 0 <= k < |ms| / 2 ==> History(ms)[k] == PairAt(ms, 2 * k)
  {
    AlternatingFrom(ms, 0);
  }

  // ---------------------------------------------------------------------
  // How the history evolves as the transcript grows.
  // ---------------------------------------------------------------------

  lemma {:induction false} TurnsAppend(ms: seq<Message>, tail: seq<Message>, i: nat)
    requires i <= |ms|
    requires |ms| > 0 && |tail| > 0 ==> !(ms[|ms| - 1].role == User && tail[0].role == Agent)
    ensures TurnsFrom(ms + tail, i) == TurnsFrom(ms, i) + TurnsFrom(tail, 0)
    decreases |ms| - i
  {
    var all := ms + tail;
    if i == |ms| {
      TurnsShift(ms, tail, 0);
    } else {
      TurnsAppend(ms, tail, i + 1);
      assert IsTurnAt(all, i) == IsTurnAt(ms, i);
    }
  }

  lemma {:induction false} TurnsShift(ms: seq<Message>, tail: seq<Message>, j: nat)
    requires j <= |tail|
    ensures TurnsFrom(ms + tail, |ms| + j) == TurnsFrom(tail, j)
    decreases |tail| - j
  {
    if j < |tail| {
      TurnsShift(ms, tail, j + 1);
      assert IsTurnAt(ms + tail, |ms| + j) == IsTurnAt(tail, j);
    }
  }

  /** The newly submitted user message never appears in the history: adding
      an unanswered user message leaves the history unchanged. */
  lemma NewUserMessageNotInHistory(ms: seq<Message>, u: Message)
    requires u.role == User
    ensures History(ms + [u]) == History(ms)
  {
    HistoryIsAllTurns(ms + [u], 0);
    HistoryIsAllTurns(ms, 0);
    TurnsAppend(ms, [u], 0);
    assert TurnsFrom([u], 0) == [];
  }

  /** A completed exchange (a user message answered by an agent message)
      adds exactly that exchange as the last pair of the next history. */
  lemma ExchangeExtendsHistory(ms: seq<Message>, u: Message, a: Message)
    requires u.role == User && a.role == Agent
    ensures History(ms + [u, a]) == History(ms) + [(u.content, a.content)]
  {
    HistoryIsAllTurns(ms + [u, a], 0);
    HistoryIsAllTurns(ms, 0);
    TurnsAppend(ms, [u, a], 0);
    assert IsTurnAt([u, a], 0);
    assert TurnsFrom([u, a], 0) == [(u.content, a.content)] + TurnsFrom([u, a], 1);
  }

  /** `[user "A", agent "B", user "C"]` gives `[("A", "B")]`. */
  lemma ExampleHistory()
    ensures History([Message(User, "A"), Message(Agent, "B"), Message(User, "C")]) == [("A", "B")]
  {
  }
}

/** What the backend reconstructs from the history the chat client sends. */
module EndToEnd {

  import opened Transcript
  import opened BackendChat

  function SpeakerOf(role: Role): Speaker
  {
    match role
    case User => Human
    case Agent => Ai
  }

  /** Between requests the client's transcript alternates and has even
      length (`ChatSession.Session.Valid`). For such a transcript the
      backend's flattened history is the transcript itself, message by
      message, with `user` tagged human and `agent` tagged ai: no exchange
      is lost on the way. */
  lemma BackendSeesWholeTranscript(ms: seq<Message>)
    requires Alternating(ms) && |ms| % 2 == 0
    ensures |Flattened(History(ms))| == |ms|
    ensures forall k :: 0 <= k < |ms| ==>
      Flattened(History(ms))[k] == (SpeakerOf(ms[k].role), ms[k].content)
  {
    var h := History(ms);
    AlternatingHistory(ms);
    FlattenedShape(h);
    forall k | 0 <= k < |ms|
      ensures Flattened(h)[k] == (SpeakerOf(ms[k].role), ms[k].content)
    {
      var j := k / 2;
      assert h[j] == PairAt(ms, 2 * j);
      if k % 2 == 0 {
        assert k == 2 * j;
      } else {
        assert k == 2 * j + 1;
      }
    }
  }
}

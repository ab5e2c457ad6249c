/** Detection of an embedded property scorecard in an agent message: the
    greedy match of `/\{[\s\S]*\}/`, a JSON parse, and the `type` test.
    `JSON.parse` is not modelled; it is a parameter, a partial function from
    text to a parsed object. */
module Scorecard {

  import opened Wrappers
  import opened Transcript

  datatype Scores = Scores(lifestyleFit: real, commuteScore: real, valueScore: real)

  /** `PropertyScorecardData` without its constant `type` member. */
  datatype PropertyScorecardData = PropertyScorecardData(
    address: string, price: real, beds: real, baths: real, sqft: real,
    imageUrl: string, scores: Scores)

  /** What a successful parse yields: the `type` member when it is a string,
      and the object read as scorecard data. */
  datatype ParsedObject = ParsedObject(typeField: Option<string>, data: PropertyScorecardData)

  const ScorecardType: string := "property_scorecard"

  // ---------------------------------------------------------------------
  // The greedy brace match
  // ---------------------------------------------------------------------

  /** `s[i..j+1]` is a match of `/\{[\s\S]*\}/`. */
  predicate MatchesAt(s: string, i: int, j: int)
  {
    0 <= i < j < |s| && s[i] == '{' && s[j] == '}'
  }

  /** The first occurrence of `c` at or after `from`. */
  function FirstIndexOf(s: string, c: char, from: nat): (r: Option<nat>)
    requires from <= |s|
    ensures r.Some? ==> from <= r.value < |s| && s[r.value] == c
    ensures forall k :: from <= k < |s| && (r.None? || k < r.value) ==> s[k] != c
    decreases |s| - from
  {
    if from == |s| then None
    else if s[from] == c then Some(from)
    else FirstIndexOf(s, c, from + 1)
  }

  /** The last occurrence of `c` before `upto`. */
  function LastIndexOf(s: string, c: char, upto: nat): (r: Option<nat>)
    requires upto <= |s|
    ensures r.Some? ==> r.value < upto && s[r.value] == c
    ensures forall k :: 0 <= k < upto && (r.None? || r.value < k) ==> s[k] != c
  {
    if upto == 0 then None
    else if s[upto - 1] == c then Some(upto - 1)
    else LastIndexOf(s, c, upto - 1)
  }

  /** `content.match(/\{[\s\S]*\}/)?.[0]`: the leftmost match, extended as
      far as the greedy `[\s\S]*` allows. There is a match exactly when some
      `}` follows some `{`; it then starts at the first `{` and ends at the
      last `}`, and every other match lies within it. */
  function JsonCandidate(s: string): (r: Option<string>)
    ensures r.None? <==> forall i, j :: !MatchesAt(s, i, j)
    ensures r.Some? ==> exists i, j :: (MatchesAt(s, i, j) && r.value == s[i..j + 1] &&
      forall i', j' :: MatchesAt(s, i', j') ==> i <= i' && j' <= j)
  {
    match (FirstIndexOf(s, '{', 0), LastIndexOf(s, '}', |s|))
    case (Some(i), Some(j)) =>
      if i < j then
        assert MatchesAt(s, i, j);
        Some(s[i..j + 1])
      else None
    case _ => None
  }

  // ---------------------------------------------------------------------
  // Classification
  // ---------------------------------------------------------------------

  /** The scorecard a message is rendered as, if any. Only agent messages
      are inspected; a missing match, a failed parse and a `type` other than
      `"property_scorecard"` all fall back to plain text. */
  function Classify(m: Message, parse: string -> Option<ParsedObject>): (r: Option<PropertyScorecardData>)
    ensures r.Some? <==>
      && m.role == Agent
      && JsonCandidate(m.content).Some?
      && parse(JsonCandidate(m.content).value).Some?
      && parse(JsonCandidate(m.content).value).value.typeField == Some(ScorecardType)
    ensures r.Some? ==> r.value == parse(JsonCandidate(m.content).value).value.data
  {
    if m.role != Agent then None
    else match JsonCandidate(m.content)
      case None => None
      case Some(text) =>
        match parse(text)
        case None => None
        case Some(obj) => if obj.typeField == Some(ScorecardType) then Some(obj.data) else None
  }

  /** A message without a `{` followed by a `}` is plain text whatever the
      parser does, e.g. "Just a normal reply.". */
  lemma NoBracesMeansPlainText(m: Message, parse: string -> Option<ParsedObject>)
    requires forall k :: 0 <= k < |m.content| ==> m.content[k] != '{'
    ensures Classify(m, parse) == None
  {
  }

  /** A single object embedded in prose is found exactly: text before it
      without `{`, text after it without `}`. */
  lemma {:induction false} EmbeddedObjectFound(before: string, obj: string, after: string)
    requires |obj| >= 2 && obj[0] == '{' && obj[|obj| - 1] == '}'
    requires forall k :: 0 <= k < |before| ==> before[k] != '{'
    requires forall k :: 0 <= k < |after| ==> after[k] != '}'
    ensures JsonCandidate(before + obj + after) == Some(obj)
  {
    var s := before + obj + after;
    var i, j := |before|, |before| + |obj| - 1;
    assert MatchesAt(s, i, j);
    var r := JsonCandidate(s);
    var i0, j0 :| MatchesAt(s, i0, j0) && r.value == s[i0..j0 + 1] &&
      forall i', j' :: MatchesAt(s, i', j') ==> i0 <= i' && j' <= j0;
    assert i0 == i && j0 == j;
    assert s[i..j + 1] == obj;
  }

  /** The embedded scorecard reply is classified by what the parser makes of
      the object alone, not of the prose around it. */
  lemma EmbeddedScorecard(before: string, obj: string, parse: string -> Option<ParsedObject>, d: PropertyScorecardData)
    requires |obj| >= 2 && obj[0] == '{' && obj[|obj| - 1] == '}'
    requires forall k :: 0 <= k < |before| ==> before[k] != '{'
    requires parse(obj) == Some(ParsedObject(Some(ScorecardType), d))
    ensures Classify(Message(Agent, before + obj), parse) == Some(d)
  {
    EmbeddedObjectFound(before, obj, []);
    assert before + obj + [] == before + obj;
  }

  /** Two objects in one reply are taken as one span from the start of the
      first to the end of the second, prose between them included; such a
      span is handed to the parser as a whole. */
  lemma TwoObjectsMergeIntoOneSpan(before: string, first: string, between: string, second: string, after: string)
    requires |first| >= 2 && first[0] == '{' && first[|first| - 1] == '}'
    requires |second| >= 2 && second[0] == '{' && second[|second| - 1] == '}'
    requires forall k :: 0 <= k < |before| ==> before[k] != '{'
    requires forall k :: 0 <= k < |after| ==> after[k] != '}'
    ensures JsonCandidate(before + first + between + second + after) == Some(first + between + second)
  {
    var span := first + between + second;
    var whole := before + first + between + second + after;
    assert whole == before + span + after by {
      assert first + between + second == first + (between + second);
    }
    SpanBraces(first, between, second);
    EmbeddedObjectFound(before, span, after);
  }

  lemma SpanBraces(first: string, between: string, second: string)
    requires |first| >= 2 && first[0] == '{'
    requires |second| >= 2 && second[|second| - 1] == '}'
    ensures var span := first + between + second;
      |span| >= 2 && span[0] == '{' && span[|span| - 1] == '}'
  {
  }
}

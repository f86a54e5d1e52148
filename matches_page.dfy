/** The client-side helpers of the matches page: the tab split of the match
    list, the per-match lookup of the user's prediction, the reduce that
    keys fetched predictions by match, and the colour a finished match's
    card gets from how good the prediction was. */
module MatchesPage {
  import opened Models
  import opened PointRule

  /** A match as the page receives it (the date is not modelled). */
  datatype MatchView = MatchView(
    id: Id,
    homeTeam: string,
    awayTeam: string,
    status: MatchStatus,
    result: Option<Score>)

  /** A prediction as the page keeps it: its id, its match's id, the guess
      and the points awarded. */
  datatype PredictionView = PredictionView(id: Id, matchId: Id, guess: Score, points: int)

  const Green := "bg-green-100 border-green-300"
  const Blue := "bg-blue-50 border-blue-200"
  const Red := "bg-red-50 border-red-200"

  /** The card colour: none without a result or a prediction, green for
      the exact score, blue for the right outcome, red otherwise. */
  function ScoreColor(m: MatchView, prediction: Option<PredictionView>): (r: string)
    ensures r == "" <==> m.result.None? || prediction.None?
    ensures m.result.Some? && prediction.Some? ==>
      var a, g := m.result.value, prediction.value.guess;
      && (r == Green <==> a == g)
      && (r == Blue <==> a != g && OutcomeOf(g.home, g.away) == OutcomeOf(a.home, a.away))
      && (r == Red <==> OutcomeOf(g.home, g.away) != OutcomeOf(a.home, a.away))
  {
    if m.result.None? || prediction.None? then ""
    else
      var actualHome, actualAway := m.result.value.home, m.result.value.away;
      var predHome, predAway := prediction.value.guess.home, prediction.value.guess.away;
      if actualHome == predHome && actualAway == predAway then Green
      else if (actualHome > actualAway && predHome > predAway)
           || (actualHome < actualAway && predHome < predAway)
           || (actualHome == actualAway && predHome == predAway) then Blue
      else Red
  }

  /** The colour tells which tier of the point rule the prediction earns:
      green the exact-score 10, blue the outcome 5, red 1 or nothing. */
  lemma ScoreColorAgreesWithPoints(m: MatchView, prediction: PredictionView)
    requires m.result.Some?
    ensures var a, g := m.result.value, prediction.guess;
      var points, color := Points(g.home, g.away, a.home, a.away), ScoreColor(m, Some(prediction));
      && (color == Green <==> points == 10)
      && (color == Blue <==> points == 5)
      && (color == Red <==> points == 0 || points == 1)
  {
  }

  /** The "upcoming" tab: every match that is not finished, live ones
      included, in list order. */
  function UpcomingMatches(ms: seq<MatchView>): (r: seq<MatchView>)
    ensures |r| <= |ms|
    ensures forall m :: m in r <==> m in ms && m.status != Finished
  {
    if ms == [] then []
    else if ms[0].status != Finished then [ms[0]] + UpcomingMatches(ms[1..])
    else UpcomingMatches(ms[1..])
  }

  /** The "finished" tab: the finished matches, in list order. */
  function FinishedMatches(ms: seq<MatchView>): (r: seq<MatchView>)
    ensures |r| <= |ms|
    ensures forall m :: m in r <==> m in ms && m.status == Finished
  {
    if ms == [] then []
    else if ms[0].status == Finished then [ms[0]] + FinishedMatches(ms[1..])
    else FinishedMatches(ms[1..])
  }

  /** The two tabs split the list: every occurrence of a match lands in
      exactly one of them. */
  lemma {:induction false} TabsPartition(ms: seq<MatchView>)
    ensures multiset(UpcomingMatches(ms)) + multiset(FinishedMatches(ms)) == multiset(ms)
    ensures |UpcomingMatches(ms)| + |FinishedMatches(ms)| == |ms|
  {
    if ms != [] {
      TabsPartition(ms[1..]);
      assert ms == [ms[0]] + ms[1..];
    }
  }

  /** The upcoming tab keeps the list's order: filtering a concatenation
      is the concatenation of the filtered parts. */
  lemma {:induction false} UpcomingKeepsOrder(a: seq<MatchView>, b: seq<MatchView>)
    ensures UpcomingMatches(a + b) == UpcomingMatches(a) + UpcomingMatches(b)
  {
    if a == [] {
      assert a + b == b;
    } else {
      var ab := a + b;
      assert ab[0] == a[0] && ab[1..] == a[1..] + b;
      UpcomingKeepsOrder(a[1..], b);
    }
  }

  /** The finished tab keeps the list's order. */
  lemma {:induction false} FinishedKeepsOrder(a: seq<MatchView>, b: seq<MatchView>)
    ensures FinishedMatches(a + b) == FinishedMatches(a) + FinishedMatches(b)
  {
    if a == [] {
      assert a + b == b;
    } else {
      var ab := a + b;
      assert ab[0] == a[0] && ab[1..] == a[1..] + b;
      FinishedKeepsOrder(a[1..], b);
    }
  }

  /** `getPredictionForMatch`: the first prediction for the match, if any. */
  function PredictionForMatch(preds: seq<PredictionView>, matchId: Id): (r: Option<PredictionView>)
    ensures r.None? <==> forall i :: 0 <= i < |preds| ==> preds[i].matchId != matchId
    ensures r.Some? ==> r.value in preds && r.value.matchId == matchId
  {
    if preds == [] then None
    else if preds[0].matchId == matchId then Some(preds[0])
    else PredictionForMatch(preds[1..], matchId)
  }

  /** The lookup returns the earliest prediction for the match. */
  lemma {:induction false} PredictionForMatchFirst(preds: seq<PredictionView>, matchId: Id, j: nat)
    requires j < |preds| && preds[j].matchId == matchId
    requires forall i :: 0 <= i < j ==> preds[i].matchId != matchId
    ensures PredictionForMatch(preds, matchId) == Some(preds[j])
  {
    if j > 0 {
      PredictionForMatchFirst(preds[1..], matchId, j - 1);
    }
  }

  /** The last prediction in the list for the match, if any. */
  function LastFor(preds: seq<PredictionView>, matchId: Id): (r: Option<PredictionView>)
    ensures r.None? <==> forall i :: 0 <= i < |preds| ==> preds[i].matchId != matchId
    ensures r.Some? ==> r.value in preds && r.value.matchId == matchId
  {
    if preds == [] then None
    else if preds[|preds| - 1].matchId == matchId then Some(preds[|preds| - 1])
    else LastFor(preds[..|preds| - 1], matchId)
  }

  /** LastFor picks the latest prediction for the match. */
  lemma {:induction false} LastForLatest(preds: seq<PredictionView>, matchId: Id, j: nat)
    requires j < |preds| && preds[j].matchId == matchId
    requires forall i :: j < i < |preds| ==> preds[i].matchId != matchId
    ensures LastFor(preds, matchId) == Some(preds[j])
  {
    var n := |preds| - 1;
    if j < n {
      LastForLatest(preds[..n], matchId, j);
    }
  }

  /** The match ids of a list in order of first appearance, as the keys of
      the object the reduce builds. */
  function MatchKeys(preds: seq<PredictionView>): (keys: seq<Id>)
    ensures forall i, j :: 0 <= i < j < |keys| ==> keys[i] != keys[j]
    ensures forall k :: k in keys <==> LastFor(preds, k).Some?
  {
    if preds == [] then []
    else
      var keys := MatchKeys(preds[..|preds| - 1]);
      var k := preds[|preds| - 1].matchId;
      if k in keys then keys else keys + [k]
  }

  /** The index of the first prediction for the match, or the list's length
      when there is none. */
  function FirstIndex(preds: seq<PredictionView>, matchId: Id): (i: nat)
    ensures i <= |preds|
    ensures i < |preds| ==> preds[i].matchId == matchId
    ensures forall j :: 0 <= j < i ==> preds[j].matchId != matchId
  {
    if preds == [] then 0
    else if preds[0].matchId == matchId then 0
    else 1 + FirstIndex(preds[1..], matchId)
  }

  /** Appending a prediction does not move an earlier first appearance. */
  lemma FirstIndexAppend(preds: seq<PredictionView>, x: PredictionView, matchId: Id)
    requires FirstIndex(preds, matchId) < |preds|
    ensures FirstIndex(preds + [x], matchId) == FirstIndex(preds, matchId)
  {
    var i, i' := FirstIndex(preds, matchId), FirstIndex(preds + [x], matchId);
    assert (preds + [x])[i] == preds[i];
  }

  /** Every key occurs in the list. */
  lemma KeyOccurs(preds: seq<PredictionView>, k: Id)
    requires k in MatchKeys(preds)
    ensures FirstIndex(preds, k) < |preds|
  {
  }

  /** The keys are in order of first appearance in the list. */
  lemma {:induction false} MatchKeysFirstAppearance(preds: seq<PredictionView>, i: nat, j: nat)
    requires i < j < |MatchKeys(preds)|
    ensures FirstIndex(preds, MatchKeys(preds)[i]) < FirstIndex(preds, MatchKeys(preds)[j]) < |preds|
  {
    var n := |preds| - 1;
    var front, last := preds[..n], preds[n];
    assert preds == front + [last];
    var keys, keys' := MatchKeys(preds), MatchKeys(front);
    if j < |keys'| {
      MatchKeysFirstAppearance(front, i, j);
      FirstIndexAppend(front, last, keys'[i]);
      FirstIndexAppend(front, last, keys'[j]);
    } else {
      var k := last.matchId;
      assert k !in keys' && keys == keys' + [k];
      KeyOccurs(front, keys'[i]);
      FirstIndexAppend(front, last, keys'[i]);
    }
  }

  /** The values of the reduce's object: for each match id in order of
      first appearance, the last prediction for it. */
  function Grouped(preds: seq<PredictionView>): (r: seq<PredictionView>)
    ensures |r| == |MatchKeys(preds)|
    ensures forall i :: 0 <= i < |r| ==> r[i].matchId == MatchKeys(preds)[i]
  {
    var keys := MatchKeys(preds);
    seq(|keys|, i requires 0 <= i < |keys| => LastFor(preds, keys[i]).value)
  }

  /** The reduce over the fetched predictions followed by Object.values:
      assigning under an existing key keeps the key's place and replaces
      its value. */
  method GroupByMatch(fetched: seq<PredictionView>) returns (values: seq<PredictionView>)
    ensures values == Grouped(fetched)
  {
    var acc: map<Id, PredictionView> := map[];
    var keys: seq<Id> := [];
    var i := 0;
    while i < |fetched|
      invariant 0 <= i <= |fetched|
      invariant keys == MatchKeys(fetched[..i])
      invariant forall k :: k in acc <==> k in keys
      invariant forall k :: k in acc ==> LastFor(fetched[..i], k) == Some(acc[k])
    {
      var prediction := fetched[i];
      assert fetched[..i + 1][..i] == fetched[..i];
      if prediction.matchId !in acc {
        keys := keys + [prediction.matchId];
      }
      acc := acc[prediction.matchId := prediction];
      i := i + 1;
    }
    assert fetched[..i] == fetched;
    values := seq(|keys|, j requires 0 <= j < |keys| => acc[keys[j]]);
  }

  /** After the reduce, the lookup for a match finds the last fetched
      prediction for it, and nothing when none was fetched: the kept list
      holds at most one prediction per match. */
  lemma LookupAfterGrouping(fetched: seq<PredictionView>, matchId: Id)
    ensures PredictionForMatch(Grouped(fetched), matchId) == LastFor(fetched, matchId)
  {
    var keys, values := MatchKeys(fetched), Grouped(fetched);
    if matchId in keys {
      var j :| 0 <= j < |keys| && keys[j] == matchId;
      PredictionForMatchFirst(values, matchId, j);
    }
  }
}

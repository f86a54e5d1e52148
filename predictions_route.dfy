/** The prediction submission handler: a signed-in user posts a guess for
    an upcoming match; the guess replaces the user's existing prediction
    for that match or becomes a new pending prediction listed on the match. */
module PredictionsRoute {
  import opened Models
  import opened Totals

  /** The handler's answer: the saved prediction document (HTTP 201) or an
      error status. */
  datatype Response = Saved(id: Id, prediction: Prediction) | Failed(status: nat)

  predicate IsHexDigit(c: char)
  {
    '0' <= c <= '9' || 'a' <= c <= 'f' || 'A' <= c <= 'F'
  }

  /** The textual form of a document identifier: exactly 24 hex digits. */
  predicate IsObjectId(s: string)
  {
    |s| == 24 && forall i :: 0 <= i < |s| ==> IsHexDigit(s[i])
  }

  function LowerHex(c: char): char
  {
    if 'A' <= c <= 'F' then (c as int + 32) as char else c
  }

  /** The identifier a hex string denotes once cast to a document id: the
      store keeps identifiers with lower-case hex digits, and a request's
      upper-case digits denote the same id. */
  function Canonical(s: string): (r: string)
    ensures |r| == |s|
    ensures forall i :: 0 <= i < |s| && !('A' <= s[i] <= 'F') ==> r[i] == s[i]
    ensures forall i :: 0 <= i < |s| && 'A' <= s[i] <= 'F' ==> r[i] == s[i] + ('a' - 'A')
  {
    if s == [] then [] else [LowerHex(s[0])] + Canonical(s[1..])
  }

  /** Casting keeps an identifier well formed, and a cast identifier is
      already in its stored form. */
  lemma CanonicalIsObjectId(s: string)
    requires IsObjectId(s)
    ensures IsObjectId(Canonical(s))
    ensures Canonical(Canonical(s)) == Canonical(s)
    ensures forall i :: 0 <= i < 24 ==> !('A' <= Canonical(s)[i] <= 'F')
  {
    var c := Canonical(s);
    assert forall i :: 0 <= i < 24 ==> !('A' <= c[i] <= 'F') && IsHexDigit(c[i]);
    assert Canonical(c) == c;
  }

  /** At most one prediction per (user, match) pair. */
  ghost predicate Unique(preds: map<Id, Prediction>)
  {
    forall p, q ::
      (p in preds && q in preds && preds[p].user == preds[q].user && preds[p].matchId == preds[q].matchId) ==> p == q
  }

  /** Every prediction names an existing match that lists it. */
  ghost predicate Linked(matches: map<Id, Match>, preds: map<Id, Prediction>)
  {
    forall p :: p in preds ==> preds[p].matchId in matches && p in matches[preds[p].matchId].predictions
  }

  /** The ids of the user's predictions for the match. */
  function PredictionsBy(preds: map<Id, Prediction>, user: Id, matchId: Id): (s: set<Id>)
    ensures s <= preds.Keys
    ensures forall p :: p in s <==> p in preds && preds[p].user == user && preds[p].matchId == matchId
  {
    set p | p in preds && preds[p].user == user && preds[p].matchId == matchId
  }

  /** Under uniqueness the lookup by user and match finds at most one
      prediction, and any one it finds is the only one: picking an
      arbitrary element of the set is picking the document a single-result
      query returns. */
  lemma PredictionsByAtMostOne(preds: map<Id, Prediction>, user: Id, matchId: Id, id: Id)
    requires Unique(preds)
    ensures |PredictionsBy(preds, user, matchId)| <= 1
    ensures id in PredictionsBy(preds, user, matchId) ==> PredictionsBy(preds, user, matchId) == {id}
  {
    var s := PredictionsBy(preds, user, matchId);
    if s != {} {
      var q :| q in s;
      assert s == {q};
    }
  }

  /** Changing a prediction's guess keeps uniqueness. */
  lemma {:induction false} ReguessKeepsUnique(preds: map<Id, Prediction>, p: Id, guess: Score)
    requires Unique(preds) && p in preds
    ensures Unique(preds[p := preds[p].(guess := guess)])
  {
    var preds' := preds[p := preds[p].(guess := guess)];
    forall a, b | a in preds' && b in preds' && preds'[a].user == preds'[b].user
      && preds'[a].matchId == preds'[b].matchId
      ensures a == b
    {
      assert preds[a].user == preds[b].user && preds[a].matchId == preds[b].matchId;
    }
  }

  /** Adding a prediction for a pair that has none keeps uniqueness. */
  lemma {:induction false} CreateKeepsUnique(preds: map<Id, Prediction>, id: Id, p: Prediction)
    requires Unique(preds) && id !in preds
    requires PredictionsBy(preds, p.user, p.matchId) == {}
    ensures Unique(preds[id := p])
  {
    var preds' := preds[id := p];
    forall a, b | a in preds' && b in preds' && preds'[a].user == preds'[b].user
      && preds'[a].matchId == preds'[b].matchId
      ensures a == b
    {
    }
  }

  /** Changing a prediction's guess keeps every prediction linked. */
  lemma ReguessKeepsLinked(matches: map<Id, Match>, preds: map<Id, Prediction>, p: Id, guess: Score)
    requires Linked(matches, preds) && p in preds
    ensures Linked(matches, preds[p := preds[p].(guess := guess)])
  {
  }

  /** Adding a prediction and appending its id to its match's list keeps
      every prediction linked. */
  lemma {:induction false} CreateKeepsLinked(matches: map<Id, Match>, preds: map<Id, Prediction>, id: Id, p: Prediction)
    requires Linked(matches, preds) && id !in preds && p.matchId in matches
    ensures var m := matches[p.matchId];
      Linked(matches[p.matchId := m.(predictions := m.predictions + [id])], preds[id := p])
  {
    var m := matches[p.matchId];
    var matches' := matches[p.matchId := m.(predictions := m.predictions + [id])];
    var preds' := preds[id := p];
    forall q | q in preds'
      ensures preds'[q].matchId in matches' && q in matches'[preds'[q].matchId].predictions
    {
      if q == id {
        assert matches'[p.matchId].predictions[|m.predictions|] == id;
      } else {
        var list := matches[preds[q].matchId].predictions;
        var k :| 0 <= k < |list| && list[k] == q;
        if preds[q].matchId == p.matchId {
          assert matches'[p.matchId].predictions[k] == q;
        }
      }
    }
  }

  /** A guess does not enter any user's total. */
  lemma ReguessKeepsConsistent(users: map<Id, User>, preds: map<Id, Prediction>, p: Id, guess: Score)
    requires Consistent(users, preds) && p in preds
    ensures Consistent(users, preds[p := preds[p].(guess := guess)])
  {
    var preds' := preds[p := preds[p].(guess := guess)];
    forall u | u in users
      ensures users[u].points == UserTotal(preds', u)
    {
      assert CalculatedOf(preds, u) == CalculatedOf(preds', u);
      UserTotalUnchanged(preds, preds', u);
    }
  }

  /** A new pending prediction does not enter any user's total. */
  lemma CreateKeepsConsistent(users: map<Id, User>, preds: map<Id, Prediction>, id: Id, p: Prediction)
    requires Consistent(users, preds) && id !in preds && p.status == Pending
    ensures Consistent(users, preds[id := p])
  {
    var preds' := preds[id := p];
    forall u | u in users
      ensures users[u].points == UserTotal(preds', u)
    {
      assert CalculatedOf(preds, u) == CalculatedOf(preds', u);
      UserTotalUnchanged(preds, preds', u);
    }
  }

  /** Whether the request's fields pass the validation guards: both scores
      are numbers and the match id is present and not empty. */
  predicate WellFormed(matchId: Option<string>, homeScore: Option<int>, awayScore: Option<int>)
  {
    homeScore.Some? && awayScore.Some? && matchId.Some? && matchId.value != ""
  }

  /** Saving a new guess on an existing prediction: only its guess
      changes. */
  method Reguess(db: Store, id: Id, guess: Score)
    requires id in db.predictions
    modifies db
    ensures db.predictions == old(db.predictions)[id := old(db.predictions)[id].(guess := guess)]
    ensures db.users == old(db.users) && db.matches == old(db.matches)
    ensures old(Unique(db.predictions)) ==> Unique(db.predictions)
    ensures old(Linked(db.matches, db.predictions)) ==> Linked(db.matches, db.predictions)
    ensures old(Consistent(db.users, db.predictions)) ==> Consistent(db.users, db.predictions)
  {
    if Unique(db.predictions) {
      ReguessKeepsUnique(db.predictions, id, guess);
    }
    if Linked(db.matches, db.predictions) {
      ReguessKeepsLinked(db.matches, db.predictions, id, guess);
    }
    if Consistent(db.users, db.predictions) {
      ReguessKeepsConsistent(db.users, db.predictions, id, guess);
    }
    db.predictions := db.predictions[id := db.predictions[id].(guess := guess)];
  }

  /** Creating a prediction under a fresh id and pushing the id onto its
      match's list. */
  method Create(db: Store, id: Id, prediction: Prediction)
    requires id !in db.predictions && prediction.matchId in db.matches
    requires prediction.status == Pending
    requires PredictionsBy(db.predictions, prediction.user, prediction.matchId) == {}
    modifies db
    ensures db.predictions == old(db.predictions)[id := prediction]
    ensures var m := old(db.matches)[prediction.matchId];
      db.matches == old(db.matches)[prediction.matchId := m.(predictions := m.predictions + [id])]
    ensures db.users == old(db.users)
    ensures old(Unique(db.predictions)) ==> Unique(db.predictions)
    ensures old(Linked(db.matches, db.predictions)) ==> Linked(db.matches, db.predictions)
    ensures old(Consistent(db.users, db.predictions)) ==> Consistent(db.users, db.predictions)
  {
    if Unique(db.predictions) {
      CreateKeepsUnique(db.predictions, id, prediction);
    }
    if Linked(db.matches, db.predictions) {
      CreateKeepsLinked(db.matches, db.predictions, id, prediction);
    }
    if Consistent(db.users, db.predictions) {
      CreateKeepsConsistent(db.users, db.predictions, id, prediction);
    }
    var m := db.matches[prediction.matchId];
    db.predictions := db.predictions[id := prediction];
    db.matches := db.matches[prediction.matchId := m.(predictions := m.predictions + [id])];
  }

  /** The handler. `freshId` is the identifier the store would give a newly
      created prediction. Guards are tried in order: no session user (401),
      malformed fields (400), a match id that is not 24 hex digits (400), no
      such match (404), a match that is not upcoming (400); each leaves the
      store untouched. Past them, the user's existing prediction for the
      match has its guess replaced, or a new pending prediction with zero
      points is stored and its id appended to the match's list. */
  method Submit(db: Store, session: Option<SessionUser>, matchId: Option<string>,
                homeScore: Option<int>, awayScore: Option<int>, freshId: Id)
    returns (res: Response)
    requires freshId !in db.predictions
    modifies db
    ensures session.None? ==> res == Failed(401)
    ensures session.Some? && !WellFormed(matchId, homeScore, awayScore) ==> res == Failed(400)
    ensures session.Some? && WellFormed(matchId, homeScore, awayScore) && !IsObjectId(matchId.value) ==>
      res == Failed(400)
    ensures session.Some? && WellFormed(matchId, homeScore, awayScore) && IsObjectId(matchId.value) ==>
      var mid := Canonical(matchId.value);
      && (mid !in old(db.matches) ==> res == Failed(404))
      && (mid in old(db.matches) && old(db.matches)[mid].status != Upcoming ==> res == Failed(400))
    ensures res.Failed? ==> unchanged(db)
    ensures res.Saved? ==>
      && session.Some? && WellFormed(matchId, homeScore, awayScore) && IsObjectId(matchId.value)
      && var mid, user, guess := Canonical(matchId.value), session.value.id, Score(homeScore.value, awayScore.value);
      && mid in old(db.matches) && old(db.matches)[mid].status == Upcoming
      && db.users == old(db.users)
      && res.id in db.predictions && res.prediction == db.predictions[res.id]
      && res.prediction.user == user && res.prediction.matchId == mid && res.prediction.guess == guess
      && (PredictionsBy(old(db.predictions), user, mid) != {} ==>
            && res.id in PredictionsBy(old(db.predictions), user, mid)
            && db.predictions == old(db.predictions)[res.id := old(db.predictions)[res.id].(guess := guess)]
            && db.matches == old(db.matches))
      && (PredictionsBy(old(db.predictions), user, mid) == {} ==>
            && res == Saved(freshId, Prediction(user, mid, guess, 0, Pending))
            && db.predictions == old(db.predictions)[freshId := res.prediction]
            && db.matches == old(db.matches)[mid := old(db.matches)[mid].(predictions := old(db.matches)[mid].predictions + [freshId])])
    ensures (&& session.Some? && WellFormed(matchId, homeScore, awayScore) && IsObjectId(matchId.value)
             && Canonical(matchId.value) in old(db.matches)
             && old(db.matches)[Canonical(matchId.value)].status == Upcoming) ==>
      res.Saved?
    ensures old(Unique(db.predictions)) ==> Unique(db.predictions)
    ensures old(Unique(db.predictions)) && res.Saved? ==>
      PredictionsBy(db.predictions, res.prediction.user, res.prediction.matchId) == {res.id}
    ensures old(Linked(db.matches, db.predictions)) ==> Linked(db.matches, db.predictions)
    ensures old(Consistent(db.users, db.predictions)) ==> Consistent(db.users, db.predictions)
  {
    if session.None? {
      return Failed(401);
    }
    if !WellFormed(matchId, homeScore, awayScore) {
      return Failed(400);
    }
    if !IsObjectId(matchId.value) {
      return Failed(400);
    }
    var mid := Canonical(matchId.value);
    if mid !in db.matches {
      return Failed(404);
    }
    if db.matches[mid].status != Upcoming {
      return Failed(400);
    }
    var user, guess := session.value.id, Score(homeScore.value, awayScore.value);
    var existing := PredictionsBy(db.predictions, user, mid);
    if existing != {} {
      var id :| id in existing;
      Reguess(db, id, guess);
      res := Saved(id, db.predictions[id]);
    } else {
      var prediction := Prediction(user, mid, guess, 0, Pending);
      Create(db, freshId, prediction);
      res := Saved(freshId, prediction);
    }
    if Unique(db.predictions) {
      PredictionsByAtMostOne(db.predictions, user, mid, res.id);
    }
  }
}

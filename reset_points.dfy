/** The administrator's reset-and-recompute handler: zero every aggregate,
    reset every prediction, then rescore the predictions of every finished
    match that has a result and credit the points to their owners. */
module ResetPoints {
  import opened Models
  import opened PointRule
  import opened Totals

  /** A match the recompute scores: finished, with a result. */
  predicate Scorable(m: Match)
  {
    m.status == Finished && m.result.Some?
  }

  predicate InScorableMatch(p: Prediction, matches: map<Id, Match>)
  {
    p.matchId in matches && Scorable(matches[p.matchId])
  }

  /** The points a prediction earns against its match's result. */
  function PointsFor(p: Prediction, m: Match): int
    requires m.result.Some?
  {
    Points(p.guess.home, p.guess.away, m.result.value.home, m.result.value.away)
  }

  /** A prediction as the bulk reset leaves it. */
  function Reset(p: Prediction): Prediction
  {
    p.(points := 0, status := Pending)
  }

  /** A prediction as the recompute leaves it. */
  function Rescored(p: Prediction, matches: map<Id, Match>): Prediction
  {
    if InScorableMatch(p, matches) then
      p.(points := PointsFor(p, matches[p.matchId]), status := Calculated)
    else
      Reset(p)
  }

  /** The ids of the finished matches with a result. */
  function ScorableMatches(db: Db): set<Id>
  {
    set m | m in db.matches && Scorable(db.matches[m])
  }

  /** The ids of the predictions whose match is finished with a result. */
  function ScoredIds(db: Db): set<Id>
  {
    set p | p in db.predictions && InScorableMatch(db.predictions[p], db.matches)
  }

  /** The ids of the predictions belonging to the matches in ms. */
  function PredictionsOf(db: Db, ms: set<Id>): set<Id>
  {
    set p | p in db.predictions && db.predictions[p].matchId in ms
  }

  /** The points each scored prediction earns. */
  function EarnedMap(db: Db): (w: map<Id, int>)
    ensures w.Keys == ScoredIds(db)
  {
    map p | p in ScoredIds(db) :: PointsFor(db.predictions[p], db.matches[db.predictions[p].matchId])
  }

  /** The scored predictions among s that earn more than zero. */
  function PositiveIn(db: Db, s: set<Id>): set<Id>
  {
    set p | p in s && p in ScoredIds(db) && EarnedMap(db)[p] > 0
  }

  /** The owners of the predictions in s. */
  function OwnersOf(db: Db, s: set<Id>): set<Id>
  {
    set p | p in s && p in db.predictions :: db.predictions[p].user
  }

  /** The ids of the user's scored predictions. */
  function EarnedIds(db: Db, u: Id): (s: set<Id>)
    ensures s <= ScoredIds(db)
  {
    set p | p in ScoredIds(db) && db.predictions[p].user == u
  }

  /** The sum of the points the user's scored predictions earn. */
  ghost function Earned(db: Db, u: Id): int
  {
    SumOver(EarnedIds(db, u), EarnedMap(db))
  }

  /** The store after the recompute. */
  ghost function Recomputed(db: Db): Db
  {
    Db(map u | u in db.users :: db.users[u].(points := Earned(db, u)),
       db.matches,
       map p | p in db.predictions :: Rescored(db.predictions[p], db.matches))
  }

  /** The counters the handler reports. */
  datatype Summary = Summary(
    resetUsers: nat,
    updatedMatches: nat,
    updatedPredictions: nat,
    updatedUsers: nat)

  /** The counters for a store: users whose points the reset changed,
      matches scored, predictions earning points, and distinct owners of
      such predictions. */
  function ExpectedSummary(db: Db): Summary
  {
    var positive := PositiveIn(db, ScoredIds(db));
    Summary(|set u | u in db.users && db.users[u].points != 0|,
            |ScorableMatches(db)|,
            |positive|,
            |OwnersOf(db, positive)|)
  }

  datatype Response = Ok(summary: Summary) | Forbidden

  /** After the recompute every user's aggregate is the sum of the points of
      that user's calculated predictions. */
  lemma RecomputedConsistent(db: Db)
    ensures Consistent(Recomputed(db).users, Recomputed(db).predictions)
  {
    var r := Recomputed(db);
    forall u | u in r.users
      ensures r.users[u].points == UserTotal(r.predictions, u)
    {
      var earned := EarnedIds(db, u);
      assert CalculatedOf(r.predictions, u) == earned;
      SumOverAgree(earned, EarnedMap(db), PointsMap(r.predictions));
    }
  }

  /** The recompute sets the status and points of every prediction from its
      match alone: scored ones become calculated with the rule's points,
      even when that is zero; all others end pending with zero points. */
  lemma RecomputedPredictions(db: Db, p: Id)
    requires p in db.predictions
    ensures var q := Recomputed(db).predictions[p];
      && q.user == db.predictions[p].user
      && q.matchId == db.predictions[p].matchId
      && q.guess == db.predictions[p].guess
      && (q.status == Calculated <==> p in ScoredIds(db))
      && (q.status == Calculated ==> q.points == EarnedMap(db)[p])
      && (q.status == Pending ==> q.points == 0)
  {
  }

  /** A user none of whose scored predictions earns points ends at zero,
      whatever the user held before. */
  lemma {:induction false} NoPositiveEndsAtZero(db: Db, u: Id)
    requires u in db.users
    requires forall p :: p in ScoredIds(db) && db.predictions[p].user == u ==> EarnedMap(db)[p] <= 0
    ensures Recomputed(db).users[u].points == 0
  {
    var earned := EarnedIds(db, u);
    SumOverZero(earned, EarnedMap(db));
  }

  /** Aggregates after the recompute are never negative. */
  lemma {:induction false} RecomputedNonNegative(db: Db, u: Id)
    requires u in db.users
    ensures Recomputed(db).users[u].points >= 0
  {
    var earned := EarnedIds(db, u);
    SumOverNonNegative(earned, EarnedMap(db));
  }

  /** Two stores agree on everything scoring reads: the matches and each
      prediction's owner, match and guess. */
  predicate SameScoringInputs(db: Db, db': Db)
  {
    && db'.matches == db.matches
    && db'.predictions.Keys == db.predictions.Keys
    && forall p :: p in db.predictions ==>
         && db'.predictions[p].user == db.predictions[p].user
         && db'.predictions[p].matchId == db.predictions[p].matchId
         && db'.predictions[p].guess == db.predictions[p].guess
  }

  /** Stores that agree on the scoring inputs score the same predictions. */
  lemma SameScoringInputsScoreSame(db: Db, db': Db)
    requires SameScoringInputs(db, db')
    ensures ScoredIds(db') == ScoredIds(db)
  {
    forall p | p in ScoredIds(db)
      ensures p in ScoredIds(db')
    {
    }
  }

  /** Stores that agree on the scoring inputs earn the same points. */
  lemma SameScoringInputsEarnSame(db: Db, db': Db)
    requires SameScoringInputs(db, db')
    ensures EarnedMap(db') == EarnedMap(db)
  {
    SameScoringInputsScoreSame(db, db');
    forall p | p in ScoredIds(db)
      ensures EarnedMap(db')[p] == EarnedMap(db)[p]
    {
    }
  }

  /** Stores that agree on the scoring inputs credit each user with the
      same predictions and the same points. */
  lemma SameScoringInputsEarnedSame(db: Db, db': Db, u: Id)
    requires SameScoringInputs(db, db')
    ensures Earned(db', u) == Earned(db, u)
  {
    SameScoringInputsEarnSame(db, db');
    SameScoringInputsScoreSame(db, db');
    assert EarnedIds(db', u) == EarnedIds(db, u);
  }

  /** Stores that agree on the scoring inputs have the same predictions
      earning points. */
  lemma SameScoringInputsPositiveSame(db: Db, db': Db)
    requires SameScoringInputs(db, db')
    ensures PositiveIn(db', ScoredIds(db')) == PositiveIn(db, ScoredIds(db))
  {
    SameScoringInputsEarnSame(db, db');
    SameScoringInputsScoreSame(db, db');
  }

  /** ... and those predictions have the same owners. */
  lemma SameScoringInputsOwnersSame(db: Db, db': Db)
    requires SameScoringInputs(db, db')
    ensures OwnersOf(db', PositiveIn(db', ScoredIds(db'))) == OwnersOf(db, PositiveIn(db, ScoredIds(db)))
  {
    SameScoringInputsPositiveSame(db, db');
    var positive := PositiveIn(db, ScoredIds(db));
    assert OwnersOf(db', positive) == OwnersOf(db, positive);
  }

  /** The recompute leaves the scoring inputs alone. */
  lemma RecomputeKeepsScoringInputs(db: Db)
    ensures SameScoringInputs(db, Recomputed(db))
  {
  }

  /** A second recompute credits every user with the same total. */
  lemma RecomputedEarnedStable(db: Db, u: Id)
    ensures Earned(Recomputed(db), u) == Earned(db, u)
  {
    RecomputeKeepsScoringInputs(db);
    SameScoringInputsEarnedSame(db, Recomputed(db), u);
  }

  /** Rescoring a rescored prediction gives it back unchanged. */
  lemma RescoredTwice(p: Prediction, matches: map<Id, Match>)
    ensures Rescored(Rescored(p, matches), matches) == Rescored(p, matches)
  {
  }

  /** A second recompute leaves the predictions as the first left them. */
  lemma RecomputedPredictionsIdempotent(db: Db)
    ensures Recomputed(Recomputed(db)).predictions == Recomputed(db).predictions
  {
    forall p | p in db.predictions
      ensures Recomputed(Recomputed(db)).predictions[p] == Recomputed(db).predictions[p]
    {
      RescoredTwice(db.predictions[p], db.matches);
    }
  }

  /** A second recompute leaves the users as the first left them. */
  lemma RecomputedUsersIdempotent(db: Db)
    ensures Recomputed(Recomputed(db)).users == Recomputed(db).users
  {
    forall u | u in db.users
      ensures Recomputed(Recomputed(db)).users[u] == Recomputed(db).users[u]
    {
      RecomputedEarnedStable(db, u);
    }
  }

  /** Running the recompute a second time changes nothing. */
  lemma RecomputedIdempotent(db: Db)
    ensures Recomputed(Recomputed(db)) == Recomputed(db)
  {
    RecomputedPredictionsIdempotent(db);
    RecomputedUsersIdempotent(db);
  }

  /** A second run reports the same counters, except for the users whose
      points its reset zeroes. */
  lemma RecomputedSameCounters(db: Db)
    ensures ExpectedSummary(Recomputed(db)).(resetUsers := 0) == ExpectedSummary(db).(resetUsers := 0)
  {
    RecomputeKeepsScoringInputs(db);
    SameScoringInputsPositiveSame(db, Recomputed(db));
    SameScoringInputsOwnersSame(db, Recomputed(db));
  }

  /** The prediction documents once the predictions in `done` have been
      rescored and all others are as the bulk reset left them. */
  function PartialPredictions(db0: Db, done: set<Id>): map<Id, Prediction>
  {
    map p | p in db0.predictions ::
      if p in done then Rescored(db0.predictions[p], db0.matches) else Reset(db0.predictions[p])
  }

  /** The user documents once the predictions in `done` have been rescored:
      each user holds the points of their rescored predictions. */
  ghost function PartialUsers(db0: Db, done: set<Id>): map<Id, User>
  {
    map u | u in db0.users :: db0.users[u].(points := EarnedSoFar(db0, done, u))
  }

  /** The points of the user's predictions rescored so far. */
  ghost function EarnedSoFar(db0: Db, done: set<Id>, u: Id): int
  {
    SumOver(EarnedIds(db0, u) * done, EarnedMap(db0))
  }

  /** `$inc` of a user's points by v; a missing user is left alone. */
  function Inc(users: map<Id, User>, u: Id, v: int): map<Id, User>
  {
    if u in users then users[u := users[u].(points := users[u].points + v)] else users
  }

  /** Right after the bulk resets nothing has been rescored. */
  lemma PartialAtStart(db0: Db)
    ensures PartialPredictions(db0, {}) == map p | p in db0.predictions :: Reset(db0.predictions[p])
    ensures PartialUsers(db0, {}) == map u | u in db0.users :: db0.users[u].(points := 0)
  {
    forall u | u in db0.users
      ensures SumOver(EarnedIds(db0, u) * {}, EarnedMap(db0)) == 0
    {
      assert EarnedIds(db0, u) * {} == {};
    }
  }

  /** A prediction not rescored yet is as the bulk reset left it, and the
      rule gives it its earned points. */
  lemma PartialPending(db0: Db, done: set<Id>, m: Id, p: Id)
    requires m in db0.matches && Scorable(db0.matches[m])
    requires p in PredictionsOf(db0, {m}) && p !in done
    ensures p in ScoredIds(db0)
    ensures p in PartialPredictions(db0, done)
    ensures PartialPredictions(db0, done)[p] == Reset(db0.predictions[p])
    ensures var q, r := db0.predictions[p], db0.matches[m].result.value;
      Points(q.guess.home, q.guess.away, r.home, r.away) == EarnedMap(db0)[p]
  {
  }

  /** Rescoring p writes its points and status. */
  lemma PartialPredictionsStep(db0: Db, done: set<Id>, p: Id)
    requires p in ScoredIds(db0) && p !in done
    ensures var preds := PartialPredictions(db0, done);
      PartialPredictions(db0, done + {p})
        == preds[p := preds[p].(points := EarnedMap(db0)[p], status := Calculated)]
  {
    var preds := PartialPredictions(db0, done);
    assert preds[p].(points := EarnedMap(db0)[p], status := Calculated)
        == Rescored(db0.predictions[p], db0.matches);
  }

  /** Rescoring p adds its points to its owner's sum and to nobody else's. */
  lemma EarnedSoFarStep(db0: Db, done: set<Id>, p: Id, u: Id)
    requires p in ScoredIds(db0) && p !in done
    ensures EarnedSoFar(db0, done + {p}, u)
         == EarnedSoFar(db0, done, u)
            + (if db0.predictions[p].user == u then EarnedMap(db0)[p] else 0)
  {
    var before, after := EarnedIds(db0, u) * done, EarnedIds(db0, u) * (done + {p});
    if db0.predictions[p].user == u {
      assert after == before + {p};
      SumOverInsert(before, EarnedMap(db0), p);
    } else {
      assert after == before;
    }
  }

  /** Rescoring a prediction that earns points credits them to its owner. */
  lemma PartialUsersCredit(db0: Db, done: set<Id>, p: Id)
    requires p in ScoredIds(db0) && p !in done && EarnedMap(db0)[p] > 0
    ensures PartialUsers(db0, done + {p})
         == Inc(PartialUsers(db0, done), db0.predictions[p].user, EarnedMap(db0)[p])
  {
    forall u | u in db0.users
      ensures EarnedSoFar(db0, done + {p}, u)
           == EarnedSoFar(db0, done, u) + (if db0.predictions[p].user == u then EarnedMap(db0)[p] else 0)
    {
      EarnedSoFarStep(db0, done, p, u);
    }
  }

  /** Rescoring a prediction that earns nothing changes no user. */
  lemma PartialUsersNoCredit(db0: Db, done: set<Id>, p: Id)
    requires p in ScoredIds(db0) && p !in done && EarnedMap(db0)[p] <= 0
    ensures PartialUsers(db0, done + {p}) == PartialUsers(db0, done)
  {
    forall u | u in db0.users
      ensures EarnedSoFar(db0, done + {p}, u) == EarnedSoFar(db0, done, u)
    {
      EarnedSoFarStep(db0, done, p, u);
    }
  }

  /** Once every scored prediction is rescored, the store is the
      recomputed one. */
  lemma PartialAtEnd(db0: Db)
    ensures PartialPredictions(db0, ScoredIds(db0)) == Recomputed(db0).predictions
    ensures PartialUsers(db0, ScoredIds(db0)) == Recomputed(db0).users
  {
    forall u | u in db0.users
      ensures EarnedIds(db0, u) * ScoredIds(db0) == EarnedIds(db0, u)
    {
    }
  }

  /** The counters after one more prediction is rescored. */
  lemma CountersStep(db0: Db, done: set<Id>, p: Id)
    requires p in ScoredIds(db0) && p !in done
    ensures EarnedMap(db0)[p] > 0 ==>
      && PositiveIn(db0, done + {p}) == PositiveIn(db0, done) + {p}
      && |PositiveIn(db0, done + {p})| == |PositiveIn(db0, done)| + 1
      && OwnersOf(db0, PositiveIn(db0, done + {p})) == OwnersOf(db0, PositiveIn(db0, done)) + {db0.predictions[p].user}
    ensures EarnedMap(db0)[p] <= 0 ==> PositiveIn(db0, done + {p}) == PositiveIn(db0, done)
  {
  }

  /** Moving one id from the work set to the finished part. */
  lemma MoveToDone(done: set<Id>, ofMatch: set<Id>, mine: set<Id>, p: Id)
    requires p in mine && mine <= ofMatch
    ensures done + (ofMatch - mine) + {p} == done + (ofMatch - (mine - {p}))
  {
  }

  /** The inner loop of the handler: rescore every prediction of the
      scorable match m against its result, crediting positive points to
      their owners and bumping the counters. */
  method ScoreMatch(ghost db0: Db, m: Id, result: Score,
                    users: map<Id, User>, preds: map<Id, Prediction>, ghost done: set<Id>,
                    updatedPredictions: nat, updatedUsers: set<Id>)
    returns (users': map<Id, User>, preds': map<Id, Prediction>, ghost done': set<Id>,
             updatedPredictions': nat, updatedUsers': set<Id>)
    requires m in db0.matches && Scorable(db0.matches[m]) && db0.matches[m].result == Some(result)
    requires done <= ScoredIds(db0) && done !! PredictionsOf(db0, {m})
    requires users == PartialUsers(db0, done) && preds == PartialPredictions(db0, done)
    requires updatedPredictions == |PositiveIn(db0, done)|
    requires updatedUsers == OwnersOf(db0, PositiveIn(db0, done))
    ensures done' == done + PredictionsOf(db0, {m}) && done' <= ScoredIds(db0)
    ensures users' == PartialUsers(db0, done') && preds' == PartialPredictions(db0, done')
    ensures updatedPredictions' == |PositiveIn(db0, done')|
    ensures updatedUsers' == OwnersOf(db0, PositiveIn(db0, done'))
  {
    users', preds', done', updatedPredictions', updatedUsers' := users, preds, done, updatedPredictions, updatedUsers;
    var mine := set p | p in preds && preds[p].matchId == m;
    ghost var ofMatch := PredictionsOf(db0, {m});
    assert mine == ofMatch;
    while mine != {}
      invariant mine <= ofMatch
      invariant done' == done + (ofMatch - mine) && done' <= ScoredIds(db0)
      invariant users' == PartialUsers(db0, done') && preds' == PartialPredictions(db0, done')
      invariant updatedPredictions' == |PositiveIn(db0, done')|
      invariant updatedUsers' == OwnersOf(db0, PositiveIn(db0, done'))
      decreases mine
    {
      var p :| p in mine;
      PartialPending(db0, done', m, p);
      PartialPredictionsStep(db0, done', p);
      CountersStep(db0, done', p);
      MoveToDone(done, ofMatch, mine, p);
      var prediction := preds'[p];
      var points := Points(prediction.guess.home, prediction.guess.away, result.home, result.away);
      preds' := preds'[p := prediction.(points := points, status := Calculated)];
      if points > 0 {
        PartialUsersCredit(db0, done', p);
        updatedPredictions' := updatedPredictions' + 1;
        users' := Inc(users', prediction.user, points);
        updatedUsers' := updatedUsers' + {prediction.user};
      } else {
        PartialUsersNoCredit(db0, done', p);
      }
      done' := done' + {p};
      mine := mine - {p};
    }
  }

  /** The handler: a caller who is not an administrator is refused with
      nothing changed; otherwise the store becomes Recomputed of the old
      store and the counters are those of ExpectedSummary. */
  method Post(session: Option<SessionUser>, db: Store) returns (res: Response)
    modifies db
    ensures !(session.Some? && session.value.isAdmin) ==> res == Forbidden && unchanged(db)
    ensures session.Some? && session.value.isAdmin ==>
      && db.Snapshot() == Recomputed(old(db.Snapshot()))
      && res == Ok(ExpectedSummary(old(db.Snapshot())))
  {
    if !(session.Some? && session.value.isAdmin) {
      return Forbidden;
    }
    ghost var db0 := db.Snapshot();

    var resetUsers := |set u | u in db.users && db.users[u].points != 0|;
    db.users := map u | u in db.users :: db.users[u].(points := 0);
    db.predictions := map p | p in db.predictions :: Reset(db.predictions[p]);
    PartialAtStart(db0);

    var finished := ScorableMatches(db.Snapshot());
    var updatedPredictions := 0;
    var updatedUsers: set<Id> := {};
    ghost var done: set<Id> := {};
    var todo := finished;
    while todo != {}
      invariant todo <= finished
      invariant db.matches == db0.matches
      invariant done == PredictionsOf(db0, finished - todo) && done <= ScoredIds(db0)
      invariant db.users == PartialUsers(db0, done) && db.predictions == PartialPredictions(db0, done)
      invariant updatedPredictions == |PositiveIn(db0, done)|
      invariant updatedUsers == OwnersOf(db0, PositiveIn(db0, done))
      decreases todo
    {
      var m :| m in todo;
      db.users, db.predictions, done, updatedPredictions, updatedUsers :=
        ScoreMatch(db0, m, db.matches[m].result.value, db.users, db.predictions, done, updatedPredictions, updatedUsers);
      todo := todo - {m};
      assert done == PredictionsOf(db0, finished - todo);
    }
    assert done == ScoredIds(db0);
    PartialAtEnd(db0);
    res := Ok(Summary(resetUsers, |finished|, updatedPredictions, |updatedUsers|));
  }
}

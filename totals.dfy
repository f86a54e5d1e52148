/** A user's aggregate points and the consistency contract that ties them
    to the user's scored predictions. */
module Totals {
  import opened Models

  /** The sum of w[k] over the ids k in s. */
  ghost function SumOver(s: set<Id>, w: map<Id, int>): int
    requires s <= w.Keys
    decreases s
  {
    if s == {} then 0 else var k :| k in s; w[k] + SumOver(s - {k}, w)
  }

  /** Any element may be peeled off first: the sum does not depend on the
      order in which ids are chosen. */
  lemma {:induction false} SumOverRemove(s: set<Id>, w: map<Id, int>, k: Id)
    requires s <= w.Keys && k in s
    ensures SumOver(s, w) == w[k] + SumOver(s - {k}, w)
    decreases s
  {
    var j :| j in s && SumOver(s, w) == w[j] + SumOver(s - {j}, w);
    if j != k {
      SumOverRemove(s - {j}, w, k);
      SumOverRemove(s - {k}, w, j);
      assert s - {j} - {k} == s - {k} - {j};
    }
  }

  /** Adding a fresh id adds its weight. */
  lemma SumOverInsert(s: set<Id>, w: map<Id, int>, k: Id)
    requires s <= w.Keys && k in w && k !in s
    ensures SumOver(s + {k}, w) == SumOver(s, w) + w[k]
  {
    SumOverRemove(s + {k}, w, k);
    assert s + {k} - {k} == s;
  }

  /** The sum only looks at the weights of the ids it ranges over. */
  lemma {:induction false} SumOverAgree(s: set<Id>, w1: map<Id, int>, w2: map<Id, int>)
    requires s <= w1.Keys && s <= w2.Keys
    requires forall k :: k in s ==> w1[k] == w2[k]
    ensures SumOver(s, w1) == SumOver(s, w2)
    decreases s
  {
    if s != {} {
      var k :| k in s;
      SumOverRemove(s, w1, k);
      SumOverRemove(s, w2, k);
      SumOverAgree(s - {k}, w1, w2);
    }
  }

  /** A sum of zeros is zero. */
  lemma {:induction false} SumOverZero(s: set<Id>, w: map<Id, int>)
    requires s <= w.Keys
    requires forall k :: k in s ==> w[k] == 0
    ensures SumOver(s, w) == 0
    decreases s
  {
    if s != {} {
      var k :| k in s;
      SumOverRemove(s, w, k);
      SumOverZero(s - {k}, w);
    }
  }

  /** A sum of non-negative weights is non-negative. */
  lemma {:induction false} SumOverNonNegative(s: set<Id>, w: map<Id, int>)
    requires s <= w.Keys
    requires forall k :: k in s ==> w[k] >= 0
    ensures SumOver(s, w) >= 0
    decreases s
  {
    if s != {} {
      var k :| k in s;
      SumOverRemove(s, w, k);
      SumOverNonNegative(s - {k}, w);
    }
  }

  /** The points awarded to each prediction. */
  function PointsMap(preds: map<Id, Prediction>): (w: map<Id, int>)
    ensures w.Keys == preds.Keys
  {
    map p | p in preds :: preds[p].points
  }

  /** The ids of the user's predictions that have been scored. */
  function CalculatedOf(preds: map<Id, Prediction>, u: Id): (s: set<Id>)
    ensures s <= preds.Keys
  {
    set p | p in preds && preds[p].user == u && preds[p].status == Calculated
  }

  /** The ground truth for a user's aggregate: the sum of the points of the
      user's calculated predictions. */
  ghost function UserTotal(preds: map<Id, Prediction>, u: Id): int
  {
    SumOver(CalculatedOf(preds, u), PointsMap(preds))
  }

  /** Every user's stored aggregate equals the ground truth. */
  ghost predicate Consistent(users: map<Id, User>, preds: map<Id, Prediction>)
  {
    forall u {:trigger UserTotal(preds, u)} :: u in users ==> users[u].points == UserTotal(preds, u)
  }

  /** Scoring one pending prediction adds its new points to its owner's
      total and leaves every other user's total as it was. */
  lemma UserTotalAfterScoring(preds: map<Id, Prediction>, p: Id, v: int, u: Id)
    requires p in preds && preds[p].status == Pending
    ensures UserTotal(preds[p := preds[p].(points := v, status := Calculated)], u)
         == UserTotal(preds, u) + (if u == preds[p].user then v else 0)
  {
    var preds' := preds[p := preds[p].(points := v, status := Calculated)];
    var before, after := CalculatedOf(preds, u), CalculatedOf(preds', u);
    assert p !in before;
    SumOverAgree(before, PointsMap(preds), PointsMap(preds'));
    if u == preds[p].user {
      assert after == before + {p};
      assert after - {p} == before;
      SumOverRemove(after, PointsMap(preds'), p);
    } else {
      assert after == before;
    }
  }

  /** A change that keeps the user's calculated predictions and their
      points keeps the user's total. */
  lemma UserTotalUnchanged(preds: map<Id, Prediction>, preds': map<Id, Prediction>, u: Id)
    requires CalculatedOf(preds, u) == CalculatedOf(preds', u)
    requires forall p :: p in CalculatedOf(preds, u) ==> preds[p].points == preds'[p].points
    ensures UserTotal(preds, u) == UserTotal(preds', u)
  {
    SumOverAgree(CalculatedOf(preds, u), PointsMap(preds), PointsMap(preds'));
  }
}

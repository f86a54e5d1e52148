/** The point rule applied by the reset-and-recompute handler: a predicted
    score against the actual score, first matching tier wins. */
module PointRule {

  /** The outcome category of a score: home win, away win or draw. */
  datatype Outcome = HomeWin | AwayWin | Draw

  function OutcomeOf(home: int, away: int): Outcome
  {
    if home > away then HomeWin else if home < away then AwayWin else Draw
  }

  /** Points for predicted (ph, pa) against actual (ah, aa). The tiers are
      tested in order 10, 5, 3, 1, 0; the goal-difference tier can never be
      reached, because an equal goal difference already puts both scores in
      the same outcome category. */
  function Points(ph: int, pa: int, ah: int, aa: int): (r: int)
    ensures r == 10 <==> ph == ah && pa == aa
    ensures r == 5 <==> !(ph == ah && pa == aa) && OutcomeOf(ph, pa) == OutcomeOf(ah, aa)
    ensures r == 1 <==> OutcomeOf(ph, pa) != OutcomeOf(ah, aa) && (ph == ah || pa == aa)
    ensures r == 0 <==> OutcomeOf(ph, pa) != OutcomeOf(ah, aa) && ph != ah && pa != aa
    ensures r != 3
    ensures r == 0 || r == 1 || r == 5 || r == 10
  {
    if ph == ah && pa == aa then 10
    else if (ph > pa && ah > aa) || (ph < pa && ah < aa) || (ph == pa && ah == aa) then 5
    else if ph - pa == ah - aa then 3
    else if ph == ah || pa == aa then 1
    else 0
  }

  /** Why the 3-point tier is dead: an equal goal difference forces the
      same outcome category. */
  lemma GoalDifferenceFixesOutcome(ph: int, pa: int, ah: int, aa: int)
    requires ph - pa == ah - aa
    ensures OutcomeOf(ph, pa) == OutcomeOf(ah, aa)
    ensures Points(ph, pa, ah, aa) in {5, 10}
  {
  }
}

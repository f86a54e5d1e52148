# iddiakolik core, modelled in Dafny

iddiakolik is a football prediction game. Signed-in users guess the score
of upcoming matches. An administrator enters results and can reset and
recompute every user's points. The matches page shows each user their
guesses, coloured by how good they were. This project models four parts
of the application:

- **The point rule** (`PointRule`). A guess earns 10 points for the exact
  score and 5 for the right outcome (home win, away win or draw). It earns
  3 for the right goal difference and 1 for one side's goals; otherwise it
  earns 0. The tiers are tested in that order. The 3-point tier can never
  fire: an equal goal difference already forces the same outcome, so the
  5-point tier has matched first. The leaderboard page still advertises
  "goal difference: 3 points" (`iddiakolik/src/app/leaderboard/page.tsx:98`).
  `Points` is proved to return only 0, 1, 5 or 10.
- **The reset-and-recompute handler** (`ResetPoints`, `Totals`). It checks
  that the caller is an administrator. It then zeroes every user's points
  and resets every prediction to pending with 0 points. Next, for each
  finished match with a result, it scores each prediction and adds
  positive points to the owner's aggregate, counting the predictions and
  users it credited. The handler is an imperative method on a `Store`.
  It is proved equal to a declarative specification, `Recomputed`. That
  specification is proved to leave every user's aggregate equal to the
  sum of that user's calculated predictions. It is also proved
  idempotent: a second run leaves the store as it is. It reports the same
  matches, predictions and users counters; only `resetUsers` may differ.
  Crediting a user goes through `Inc`, which mirrors `$inc` through
  `findByIdAndUpdate`. When the owner's user document is missing it
  changes nothing, yet the owner's id still enters the set of credited
  users, as in the source.
- **The prediction submission handler** (`PredictionsRoute`). It applies
  its guards in order: 401, then 400 for malformed fields, 400 for a bad
  id format, 404, then 400 for a match that is not upcoming. Past them it
  either replaces the guess of the user's existing prediction, or it
  creates a pending prediction and appends its id to the match. The model
  proves that each branch keeps three invariants: one prediction per user
  and match, predictions linked to their match, and consistent
  aggregates.
- **The matches page helpers** (`MatchesPage`) and **team logos**
  (`TeamLogos`):
  - the card colour, proved to agree with the point rule's tiers;
  - the two tab filters, proved to partition the list and keep its order;
  - the per-match lookup;
  - the reduce that keys predictions by match id, proved to keep the last
    prediction for each match, in order of first appearance;
  - the logo table with its default, and the team-name normalisation,
    proved idempotent, with every alias having a real logo.

`models.dfy` holds the document kinds (User, Match, Prediction). It also
holds the `Store` class, one map per collection.

## Model

| member | source | states |
|---|---|---|
| PointRule.Points | iddiakolik/src/app/api/admin/reset-points/route.ts:44-69 | 10 exactly for the exact score, 5 exactly for a different score with the same outcome, 1 exactly for a wrong outcome with one side's goals right, 0 otherwise; never 3 and always one of 0, 1, 5, 10 |
| PointRule.GoalDifferenceFixesOutcome | iddiakolik/src/app/api/admin/reset-points/route.ts:55-65 | an equal goal difference implies the same outcome, so such a guess earns 5 or 10 and the goal-difference branch is dead |
| Totals.UserTotalAfterScoring | iddiakolik/src/app/api/admin/reset-points/route.ts:72-86 | scoring one pending prediction raises its owner's sum of calculated points by exactly its points and leaves every other user's sum as it was, which is what the `$inc` mirrors |
| ResetPoints.Post | iddiakolik/src/app/api/admin/reset-points/route.ts:9-107 | a non-administrator gets 403 and the store is untouched; for an administrator the store becomes `Recomputed` of the old store and the response carries the counters of `ExpectedSummary` (users the reset changed, matches scored, predictions earning points, distinct users credited) |
| ResetPoints.ScoreMatch | iddiakolik/src/app/api/admin/reset-points/route.ts:38-87 | scoring one finished match's predictions moves exactly that match's predictions to rescored, credits each owner with the positive points (through `Inc`, which leaves the users alone when the owner's document is missing), and keeps the two counters equal to the number of crediting predictions and the set of their owners |
| ResetPoints.RecomputedConsistent | iddiakolik/src/app/api/admin/reset-points/route.ts:20-87 | after the recompute every user's aggregate equals the sum of the points of that user's calculated predictions |
| ResetPoints.RecomputedPredictions | iddiakolik/src/app/api/admin/reset-points/route.ts:24-74 | a prediction of a finished match with a result ends calculated with the point rule's points; every other prediction ends pending with 0 points; owner, match and guess never change |
| ResetPoints.NoPositiveEndsAtZero | iddiakolik/src/app/api/admin/reset-points/route.ts:76-86 | a user none of whose scored predictions earns points ends with 0 points |
| ResetPoints.RecomputedNonNegative | iddiakolik/src/app/api/admin/reset-points/route.ts:20-86 | every aggregate after the recompute is non-negative |
| ResetPoints.RescoredTwice | iddiakolik/src/app/api/admin/reset-points/route.ts:72-73 | rescoring an already rescored prediction changes nothing |
| ResetPoints.RecomputedEarnedStable | iddiakolik/src/app/api/admin/reset-points/route.ts:76-86 | a second recompute credits each user with the same total as the first |
| ResetPoints.RecomputedIdempotent | iddiakolik/src/app/api/admin/reset-points/route.ts:20-87 | recomputing a recomputed store gives the same store |
| ResetPoints.RecomputedSameCounters | iddiakolik/src/app/api/admin/reset-points/route.ts:100-106 | a second run reports the same matches, predictions and users counters; only the reset counter may differ |
| PredictionsRoute.Submit | iddiakolik/src/app/api/predictions/route.ts:8-95 | 401 without a session user; 400 for a missing score or a missing or empty match id (`WellFormed`, the guard at line 22); 400 for an id that is not 24 hex digits (`IsObjectId`, the pattern at line 30); 404 for no such match; 400 for a match that is not upcoming; every failure leaves the store untouched; otherwise the user's existing prediction for the match gets the new guess and nothing else changes, or a pending 0-point prediction is created and its id appended to the match; passing every guard always saves; uniqueness, linkage and aggregate consistency are preserved; under uniqueness the saved prediction is afterwards the user's only prediction for the match |
| PredictionsRoute.Reguess | iddiakolik/src/app/api/predictions/route.ts:61-67 | only the prediction's guess changes; users and matches are unchanged; the three store invariants are preserved |
| PredictionsRoute.Create | iddiakolik/src/app/api/predictions/route.ts:68-85 | the prediction is stored under the fresh id and the id is appended to its match's list, with nothing else changed; the three store invariants are preserved |
| PredictionsRoute.PredictionsByAtMostOne | iddiakolik/src/app/api/predictions/route.ts:56-59 | under uniqueness the lookup by user and match (`PredictionsBy`) finds at most one prediction, and any one it finds is the only one, so picking an element of the set is what the single-result query returns |
| PredictionsRoute.Canonical | iddiakolik/src/app/api/predictions/route.ts:40 | same length; upper-case hex letters become lower-case and every other character is kept |
| PredictionsRoute.CanonicalIsObjectId | iddiakolik/src/app/api/predictions/route.ts:30-40 | a well-formed id stays well formed once cast, has no upper-case digit, and casting it again changes nothing |
| PredictionsRoute.ReguessKeepsUnique | iddiakolik/src/app/api/predictions/route.ts:56-67 | changing a guess keeps at most one prediction per user and match |
| PredictionsRoute.CreateKeepsUnique | iddiakolik/src/app/api/predictions/route.ts:56-85 | creating a prediction only when the user has none for the match keeps at most one per user and match |
| PredictionsRoute.ReguessKeepsLinked | iddiakolik/src/app/api/predictions/route.ts:61-67 | changing a guess keeps every prediction on an existing match that lists it |
| PredictionsRoute.CreateKeepsLinked | iddiakolik/src/app/api/predictions/route.ts:68-85 | creating a prediction and pushing its id onto its match keeps every prediction on an existing match that lists it |
| PredictionsRoute.ReguessKeepsConsistent | iddiakolik/src/app/api/predictions/route.ts:61-67 | changing a guess keeps every aggregate equal to its user's calculated points |
| PredictionsRoute.CreateKeepsConsistent | iddiakolik/src/app/api/predictions/route.ts:68-79 | a new pending prediction keeps every aggregate equal to its user's calculated points |
| MatchesPage.ScoreColor | iddiakolik/src/app/matches/page.tsx:85-108 | empty exactly when the result or the prediction is missing; otherwise green exactly for the exact score, blue exactly for another score with the right outcome, red exactly for the wrong outcome |
| MatchesPage.ScoreColorAgreesWithPoints | iddiakolik/src/app/matches/page.tsx:85-108 | green exactly when the point rule gives 10, blue exactly when it gives 5, red exactly when it gives 0 or 1 |
| MatchesPage.UpcomingMatches | iddiakolik/src/app/matches/page.tsx:118 | holds exactly the matches of the list that are not finished, live ones included |
| MatchesPage.FinishedMatches | iddiakolik/src/app/matches/page.tsx:119 | holds exactly the finished matches of the list |
| MatchesPage.TabsPartition | iddiakolik/src/app/matches/page.tsx:118-119 | the two tabs together hold every occurrence of every match exactly once |
| MatchesPage.UpcomingKeepsOrder | iddiakolik/src/app/matches/page.tsx:118 | the upcoming filter distributes over concatenation, so it keeps list order |
| MatchesPage.FinishedKeepsOrder | iddiakolik/src/app/matches/page.tsx:119 | the finished filter distributes over concatenation, so it keeps list order |
| MatchesPage.PredictionForMatch | iddiakolik/src/app/matches/page.tsx:81-83 | nothing exactly when no prediction has that match id; otherwise a prediction of the list for that match |
| MatchesPage.PredictionForMatchFirst | iddiakolik/src/app/matches/page.tsx:81-83 | the lookup returns the earliest prediction for the match |
| MatchesPage.LastForLatest | iddiakolik/src/app/matches/page.tsx:65-73 | the reduce's value for a match is the latest fetched prediction for it |
| MatchesPage.GroupByMatch | iddiakolik/src/app/matches/page.tsx:65-74 | the reduce followed by `Object.values` yields `Grouped`: one value per fetched match id, in the order of `MatchKeys`, each the last fetched prediction for its id |
| MatchesPage.MatchKeysFirstAppearance | iddiakolik/src/app/matches/page.tsx:65-74 | the object's keys, and so the values, are in order of first appearance: for keys i < j, the first fetched prediction for key i comes before the first for key j |
| MatchesPage.LookupAfterGrouping | iddiakolik/src/app/matches/page.tsx:65-83 | after the reduce, looking up a match finds the last fetched prediction for it, and nothing when none was fetched |
| TeamLogos.TeamLogo | iddiakolik/src/utils/teamLogos.ts:40-43 | a listed name gets its table entry; any other name gets the default logo |
| TeamLogos.TeamLogoIsLogoPath | iddiakolik/src/utils/teamLogos.ts:2-43 | every name gets a non-empty `/logos/<file>.png` path; the table itself is `LogoFile` (file stems) and `LogoTable` (full paths), entry for entry the object literal at lines 2-38 |
| TeamLogos.NormalizeTeamName | iddiakolik/src/utils/teamLogos.ts:47-70 | a listed alias becomes the name it stands for; any other name is returned unchanged; the alias table is `Normalizations`, entry for entry the object literal at lines 48-67 |
| TeamLogos.NormalizeIdempotent | iddiakolik/src/utils/teamLogos.ts:47-70 | normalising a normalised name changes nothing |
| TeamLogos.TargetsHaveLogos | iddiakolik/src/utils/teamLogos.ts:2-67 | every name an alias stands for is in the logo table with a file other than the default |
| TeamLogos.NormalizedAliasHasLogo | iddiakolik/src/utils/teamLogos.ts:2-70 | a normalised alias is a listed team whose logo is not the default |
| TeamLogos.SharedGaziantep | iddiakolik/src/utils/teamLogos.ts:18-19 | both Gaziantep names, and the normalised short name, get the same logo |
| TeamLogos.SharedRize | iddiakolik/src/utils/teamLogos.ts:20-21 | both Rizespor names, and the normalised short name, get the same logo |
| TeamLogos.SharedBodrum | iddiakolik/src/utils/teamLogos.ts:23-24 | both Bodrum names, and the normalised short name, get the same logo |

## Left out

- JavaScript values other than integers are not modelled. A score is an optional integer, so `NaN`, `Infinity` and fractional scores are absent. A truthy match id that is not a string would throw, giving a 500; it is absent too.
- The `catch` paths answering 500 for any thrown error are left out. So are database failures.
- The `connectDB` calls, the session lookup and the authentication configuration are left out. The session is a parameter (`Option<SessionUser>`).
- `freshId` is a parameter: the store's id generator is outside the model. It is required not to name an existing prediction.
- Concurrent requests are left out: each handler runs atomically on the `Store`. The source issues one database write per document; the model assigns whole collections.
- The order in which the database returns documents is left out. The recompute takes matches and predictions from sets in any order. The result does not depend on that order, and the contracts hold for every choice.
- ResetPoints.Post: the `userPoints` list in the response and the console logging are left out. A match with a `null` result score is left out too: in the model a result is present or absent, with no half-filled case.
- ResetPoints.Post: `resetUsers` is modelled as the number of users whose points were not already 0. This matches `modifiedCount` under the store's usual behaviour.
- PredictionsRoute.Submit: the response's HTTP status 201 and its JSON body shape are not modelled. `Saved` carries the stored prediction and its id.
- Mongoose's cast of the id string is modelled by `Canonical` (hex letters lower-cased). Other forms the cast accepts are left out, because the 24-hex guard rejects them.
- In the team tables, keys inherited from `Object.prototype` (`"toString"` and the like) are left out. The model treats them as unlisted names.
- The two team tables are written as matches on the name. Logo paths are built as `/logos/<file>.png` from the file stem.
- The matches page's React state, its fetch calls, the match date and its rendering are left out. The fetched predictions are given as a sequence of `PredictionView`.
- The other routes and pages (match administration, leaderboard, profile, registration) are not part of this model.

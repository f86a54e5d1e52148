/** The three document kinds of the prediction game (User, Match, Prediction)
    and the document store that holds them, abstracted as one map per
    collection keyed by document identifier. */
module Models {

  datatype Option<T> = None | Some(value: T)

  /** A document identifier (a MongoDB ObjectId in its string form). */
  type Id = string

  datatype MatchStatus = Upcoming | Live | Finished

  datatype PredictionStatus = Pending | Calculated

  /** A pair of goal counts, home side first. */
  datatype Score = Score(home: int, away: int)

  datatype User = User(name: string, isAdmin: bool, points: int)

  /** A match; `result` is absent until an administrator enters one, and
      `predictions` is the denormalised list of prediction ids. */
  datatype Match = Match(
    homeTeam: string,
    awayTeam: string,
    status: MatchStatus,
    result: Option<Score>,
    predictions: seq<Id>)

  /** A user's guess for a match, with the points it has been awarded. */
  datatype Prediction = Prediction(
    user: Id,
    matchId: Id,
    guess: Score,
    points: int,
    status: PredictionStatus)

  /** The identity the authentication layer attaches to a request. */
  datatype SessionUser = SessionUser(id: Id, isAdmin: bool)

  /** A value snapshot of the whole store. */
  datatype Db = Db(
    users: map<Id, User>,
    matches: map<Id, Match>,
    predictions: map<Id, Prediction>)

  /** The document store; the request handlers update its collections. */
  class Store {
    var users: map<Id, User>
    var matches: map<Id, Match>
    var predictions: map<Id, Prediction>

    constructor (users: map<Id, User>, matches: map<Id, Match>, predictions: map<Id, Prediction>)
      ensures Snapshot() == Db(users, matches, predictions)
    {
      this.users := users;
      this.matches := matches;
      this.predictions := predictions;
    }

    function Snapshot(): Db
      reads this
    {
      Db(users, matches, predictions)
    }
  }
}

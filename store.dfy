/**
  The persisted attributes as an object the handlers update in place. Each
  method is one handler and assigns the fields only on the paths where the
  handler saves. AddScore and SubtractScore work on a local copy of the score
  map, as the handlers work on the loaded attributes. Each method's new state
  and reply are those of the matching turn function in Handlers.
 */
module Store {
  import opened Scoring
  import opened Handlers

  class Attributes {
    var goalScore: int
    var mustWinByTwo: bool
    var score: Option<map<Team, int>>

    /** The stored value. */
    function State(): GameState
      reads this
    {
      GameState(goalScore, mustWinByTwo, score)
    }

    ghost predicate Valid()
      reads this
    {
      WellFormed(State())
    }

    /** A store nothing has been saved to yet. */
    constructor ()
      ensures Valid() && State() == NO_ATTRIBUTES
    {
      goalScore, mustWinByTwo, score := 0, false, None;
    }

    method NewGame() returns (reply: Reply)
      modifies this
      ensures Valid()
      ensures State() == NewGameTurn(old(State())).state && reply == NewGameTurn(old(State())).reply
    {
      FreshGameIsWellFormed();
      goalScore, mustWinByTwo, score := 0, false, Some(map[White := 0, Orange := 0]);
      reply := GameStarted;
    }

    method AddScore(team: Team, points: Option<int>) returns (reply: Reply)
      requires Valid()
      modifies this
      ensures Valid()
      ensures State() == AddScoreTurn(old(State()), team, points).state
      ensures reply == AddScoreTurn(old(State()), team, points).reply
      ensures reply.GameOver? || IsError(reply) ==> unchanged(this)
    {
      var goal := goalScore;
      var goalIsSet := goal > 0;
      var byTwo := mustWinByTwo;
      if points.None? {
        return InvalidPoints;
      }
      if score.None? {
        return NoGameInProgress;
      }
      var attributes := score.value;
      var current := attributes[team];
      current := current + points.value;
      attributes := attributes[team := current];

      var goalIsMet := current >= goal;
      var win := goalIsSet && goalIsMet;
      if byTwo {
        var opponent := attributes[Other(team)];
        win := win && current - opponent > 1;
      }
      if win {
        var reached := if byTwo then current else goal;
        return GameOver(team, reached, byTwo);
      }

      score := Some(attributes);
      reply := PointsNow(team, current, SpokenPointForm(current));
      if goalIsSet && goalIsMet && byTwo {
        reply := MustWinByTwo(team, goal);
      }
    }

    method SubtractScore(team: Team, points: Option<int>) returns (reply: Reply)
      requires Valid()
      modifies this
      ensures Valid()
      ensures State() == SubtractScoreTurn(old(State()), team, points).state
      ensures reply == SubtractScoreTurn(old(State()), team, points).reply
      ensures IsError(reply) ==> unchanged(this)
    {
      if points.None? {
        return InvalidPoints;
      }
      if score.None? {
        return UnknownFault;
      }
      var attributes := score.value;
      var current := attributes[team];
      current := current - points.value;
      attributes := attributes[team := current];
      score := Some(attributes);
      reply := PointsNow(team, current, SpokenPointForm(current));
    }

    method SetScore(team: Team, points: Option<int>) returns (reply: Reply)
      requires Valid()
      modifies this
      ensures Valid()
      ensures State() == SetScoreTurn(old(State()), team, points).state
      ensures reply == SetScoreTurn(old(State()), team, points).reply
      ensures IsError(reply) ==> unchanged(this)
    {
      if points.None? {
        return InvalidPoints;
      }
      if score.None? {
        return UnknownFault;
      }
      var current := points.value;
      score := Some(score.value[team := current]);
      reply := ScoreSet(team, current, SpokenPointForm(current));
    }

    method SetGoalScore(goal: Option<int>) returns (reply: Reply)
      requires Valid()
      modifies this
      ensures Valid()
      ensures State() == SetGoalScoreTurn(old(State()), goal).state
      ensures reply == SetGoalScoreTurn(old(State()), goal).reply
      ensures IsError(reply) ==> unchanged(this)
    {
      if goal.None? {
        return InvalidGoal;
      }
      goalScore := goal.value;
      reply := GoalSet(goalScore, SpokenPointForm(goalScore));
    }

    method SetWinByTwoRule() returns (reply: Reply)
      requires Valid()
      modifies this
      ensures Valid()
      ensures State() == SetWinByTwoRuleTurn(old(State())).state
      ensures reply == SetWinByTwoRuleTurn(old(State())).reply
    {
      mustWinByTwo := true;
      reply := WinByTwoEnabled;
    }

    /** CheckScore only reads the store. */
    method CheckScore() returns (reply: Reply)
      requires Valid()
      ensures score.None? <==> reply == UnknownFault
      ensures reply.Score? ==> !reply.comparison.Listing?
      ensures reply.Score? && reply.comparison.Leading? ==>
        reply.comparison.leaderScore > reply.comparison.trailerScore
      ensures score.Some? && score.value[White] == score.value[Orange] ==>
        reply == Score(if score.value[White] == 0 then Scoreless else Tied(score.value[White]))
      ensures score.Some? && score.value[White] != score.value[Orange] ==>
        var leader := if score.value[White] > score.value[Orange] then White else Orange;
        reply == Score(Leading(leader, score.value[leader], score.value[Other(leader)]))
    {
      if score.None? {
        return UnknownFault;
      }
      var white := TotalOrZero(score.value, White);
      var orange := TotalOrZero(score.value, Orange);
      if white > orange {
        return Score(Leading(White, white, orange));
      }
      if orange > white {
        return Score(Leading(Orange, orange, white));
      }
      if white == orange {
        if white == 0 {
          return Score(Scoreless);
        } else {
          return Score(Tied(white));
        }
      }
      assert false;
      return Score(Listing(white, orange));
    }

    /** CheckGoalScore only reads the store. */
    method CheckGoalScore() returns (reply: Reply)
      ensures reply == Goal(GoalIsSet(goalScore)) <==> goalScore > 0
      ensures reply == Goal(GoalNotSet) <==> goalScore <= 0
    {
      if goalScore > 0 {
        reply := Goal(GoalIsSet(goalScore));
      } else {
        reply := Goal(GoalNotSet);
      }
    }
  }

  /** A scripted game on one store: the win-by-two rule from 10 to 9 through to a win that is not saved. */
  method ExampleSession() returns (s1: Reply, s2: Reply, s3: Reply, s4: Reply)
    ensures s1 == MustWinByTwo(White, 10)
    ensures s2 == GameOver(White, 11, true)
    ensures s3 == Score(Leading(White, 10, 9))
    ensures s4 == Goal(GoalIsSet(10))
  {
    var store := new Attributes();
    var r := store.NewGame();
    r := store.SetGoalScore(Some(10));
    r := store.SetWinByTwoRule();
    r := store.AddScore(Orange, Some(9));
    assert store.score.value[White] == 0 && store.score.value[Orange] == 9;
    s1 := store.AddScore(White, Some(10));
    s2 := store.AddScore(White, Some(1));
    s3 := store.CheckScore();
    s4 := store.CheckGoalScore();
  }
}

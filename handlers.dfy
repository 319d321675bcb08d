/**
  The intent handlers of the score keeper as state transitions. Each handler
  reads the persisted game state, computes a reply and either writes a new
  state back or leaves the store alone. A Turn records the state the store
  holds afterwards, the reply, and whether the handler saved.
 */
module Handlers {
  import opened Scoring

  /**
    The persisted attributes. goalScore 0 means unset; score is None until the
    first NewGame. A store that has never been written reads as NoAttributes.
   */
  datatype GameState = GameState(goalScore: int, mustWinByTwo: bool, score: Option<map<Team, int>>)

  /** What the store holds before anything was saved. */
  const NO_ATTRIBUTES := GameState(0, false, None)

  /** Once a game exists, both teams have a total. */
  predicate WellFormed(g: GameState)
  {
    g.score.Some? ==> forall team: Team :: team in g.score.value
  }

  /** The state NewGame writes. */
  const FRESH_GAME := GameState(0, false, Some(map[White := 0, Orange := 0]))

  /** A fresh game has a total for each team. */
  lemma FreshGameIsWellFormed()
    ensures WellFormed(FRESH_GAME)
  {
    forall team: Team ensures team in FRESH_GAME.score.value {
      match team
      case White =>
      case Orange =>
    }
  }

  /** A team's total as CheckScore reads it: a missing total reads as 0. */
  function TotalOrZero(m: map<Team, int>, team: Team): (total: int)
    ensures team in m ==> total == m[team]
    ensures team !in m ==> total == 0
  {
    if team in m then m[team] else 0
  }

  /** The spoken reply of a handler, down to which message variant applies. */
  datatype Reply =
    | GameStarted                                          // "A new game was started."
    | InvalidPoints                                        // the points slot is not a number
    | InvalidGoal                                          // the goal slot is not a number
    | NoGameInProgress                                     // "Unable to find game in progress."
    | UnknownFault                                         // the generic error handler's apology
    | GameOver(winner: Team, reached: int, byTwo: bool)    // "<team> has reached <reached>, game over."
    | MustWinByTwo(team: Team, goal: int)                  // "<team> has reached <goal> but they must win by two"
    | PointsNow(team: Team, total: int, form: PointForm)   // "<team> now has <total> <form>."
    | ScoreSet(team: Team, total: int, form: PointForm)    // "<team> score set to <total> <form>."
    | GoalSet(goal: int, form: PointForm)                  // "Goal score set to <goal> <form>."
    | WinByTwoEnabled                                      // "The must win by two rule has been enabled."
    | Score(comparison: Comparison)                        // CheckScore
    | Goal(status: GoalStatus)                             // CheckGoalScore

  /** One handled request: the state afterwards, the reply, and whether the handler saved. */
  datatype Turn = Turn(state: GameState, reply: Reply, saved: bool)

  /** The reply variants that report an error; none of them comes with a save. */
  predicate IsError(r: Reply)
  {
    r.InvalidPoints? || r.InvalidGoal? || r.NoGameInProgress? || r.UnknownFault?
  }

  // ---------------------------------------------------------------------------
  // One function per handler
  // ---------------------------------------------------------------------------

  /** NewGame overwrites whatever was stored with a fresh game. */
  function NewGameTurn(g: GameState): (t: Turn)
    ensures t.saved && t.reply == GameStarted && WellFormed(t.state)
    ensures t.state.goalScore == 0 && !t.state.mustWinByTwo
    ensures t.state.score == Some(map[White := 0, Orange := 0])
  {
    FreshGameIsWellFormed();
    Turn(FRESH_GAME, GameStarted, true)
  }

  /**
    AddScore: a non-number is refused first, then a missing game; otherwise the
    acting team's total grows by the points. A win is reported and NOT saved;
    any other outcome saves the new total and reports it (or that the team
    must win by two).
   */
  function AddScoreTurn(g: GameState, team: Team, points: Option<int>): (t: Turn)
    requires WellFormed(g)
    ensures WellFormed(t.state)
    ensures !t.saved ==> t.state == g
    ensures points.None? ==> t.reply == InvalidPoints && !t.saved
    ensures points.Some? && g.score.None? ==> t.reply == NoGameInProgress && !t.saved
    ensures t.reply.GameOver? <==>
      points.Some? && g.score.Some? &&
      IsWin(g.goalScore, g.mustWinByTwo, g.score.value[team] + points.value, g.score.value[Other(team)])
    ensures t.reply.GameOver? ==> !t.saved && t.reply.winner == team
    ensures t.saved <==> points.Some? && g.score.Some? && !t.reply.GameOver?
    ensures t.saved ==>
      && t.state.goalScore == g.goalScore
      && t.state.mustWinByTwo == g.mustWinByTwo
      && t.state.score.Some?
      && t.state.score.value.Keys == g.score.value.Keys
      && t.state.score.value[team] == g.score.value[team] + points.value
      && t.state.score.value[Other(team)] == g.score.value[Other(team)]
    ensures t.reply.MustWinByTwo? <==>
      t.saved && MustWinByTwoReply(g.goalScore, g.mustWinByTwo, g.score.value[team] + points.value)
    ensures t.reply.PointsNow? ==> t.reply.team == team && t.reply.total == t.state.score.value[team]
    ensures t.reply.GameOver? ==>
      var total := g.score.value[team] + points.value;
      t.reply == GameOver(team, if g.mustWinByTwo then total else g.goalScore, g.mustWinByTwo)
    ensures t.reply.MustWinByTwo? ==> t.reply == MustWinByTwo(team, g.goalScore)
    ensures t.saved ==>
      var total := g.score.value[team] + points.value;
      !MustWinByTwoReply(g.goalScore, g.mustWinByTwo, total) ==>
        t.reply == PointsNow(team, total, SpokenPointForm(total))
  {
    match points
    case None => Turn(g, InvalidPoints, false)
    case Some(p) =>
      match g.score
      case None => Turn(g, NoGameInProgress, false)
      case Some(m) =>
        var total := m[team] + p;
        if IsWin(g.goalScore, g.mustWinByTwo, total, m[Other(team)]) then
          Turn(g, GameOver(team, if g.mustWinByTwo then total else g.goalScore, g.mustWinByTwo), false)
        else
          var reply :=
            if MustWinByTwoReply(g.goalScore, g.mustWinByTwo, total) then MustWinByTwo(team, g.goalScore)
            else PointsNow(team, total, SpokenPointForm(total));
          Turn(g.(score := Some(m[team := total])), reply, true)
  }

  /**
    SubtractScore: a non-number is refused; with no game the score lookup
    fails and the generic error handler answers; otherwise the team's total
    shrinks by the points, with no floor, and is saved.
   */
  function SubtractScoreTurn(g: GameState, team: Team, points: Option<int>): (t: Turn)
    requires WellFormed(g)
    ensures WellFormed(t.state)
    ensures !t.saved ==> t.state == g
    ensures points.None? ==> t.reply == InvalidPoints && !t.saved
    ensures points.Some? && g.score.None? ==> t.reply == UnknownFault && !t.saved
    ensures t.saved <==> points.Some? && g.score.Some?
    ensures t.saved ==>
      && t.state.goalScore == g.goalScore
      && t.state.mustWinByTwo == g.mustWinByTwo
      && t.state.score.Some?
      && t.state.score.value.Keys == g.score.value.Keys
      && t.state.score.value[team] == g.score.value[team] - points.value
      && t.state.score.value[Other(team)] == g.score.value[Other(team)]
      && t.reply == PointsNow(team, t.state.score.value[team], SpokenPointForm(t.state.score.value[team]))
  {
    match points
    case None => Turn(g, InvalidPoints, false)
    case Some(p) =>
      match g.score
      case None => Turn(g, UnknownFault, false)
      case Some(m) =>
        var total := m[team] - p;
        Turn(g.(score := Some(m[team := total])), PointsNow(team, total, SpokenPointForm(total)), true)
  }

  /**
    SetScore: a non-number is refused; with no game the assignment into the
    missing score map fails; otherwise the team's total becomes exactly the
    given value and is saved.
   */
  function SetScoreTurn(g: GameState, team: Team, points: Option<int>): (t: Turn)
    requires WellFormed(g)
    ensures WellFormed(t.state)
    ensures !t.saved ==> t.state == g
    ensures points.None? ==> t.reply == InvalidPoints && !t.saved
    ensures points.Some? && g.score.None? ==> t.reply == UnknownFault && !t.saved
    ensures t.saved <==> points.Some? && g.score.Some?
    ensures t.saved ==>
      && t.state.goalScore == g.goalScore
      && t.state.mustWinByTwo == g.mustWinByTwo
      && t.state.score.Some?
      && t.state.score.value.Keys == g.score.value.Keys
      && t.state.score.value[team] == points.value
      && t.state.score.value[Other(team)] == g.score.value[Other(team)]
      && t.reply == ScoreSet(team, points.value, SpokenPointForm(points.value))
  {
    match points
    case None => Turn(g, InvalidPoints, false)
    case Some(p) =>
      match g.score
      case None => Turn(g, UnknownFault, false)
      case Some(m) =>
        Turn(g.(score := Some(m[team := p])), ScoreSet(team, p, SpokenPointForm(p)), true)
  }

  /**
    SetGoalScore: a non-number is refused; otherwise the goal becomes exactly
    the given value (0 or below leaves winning disabled) and is saved, whether
    or not a game exists.
   */
  function SetGoalScoreTurn(g: GameState, goal: Option<int>): (t: Turn)
    requires WellFormed(g)
    ensures WellFormed(t.state)
    ensures goal.None? ==> t == Turn(g, InvalidGoal, false)
    ensures goal.Some? ==>
      && t.saved
      && t.state == g.(goalScore := goal.value)
      && t.reply == GoalSet(goal.value, SpokenPointForm(goal.value))
  {
    match goal
    case None => Turn(g, InvalidGoal, false)
    case Some(v) => Turn(g.(goalScore := v), GoalSet(v, SpokenPointForm(v)), true)
  }

  /** SetWinByTwoRule switches the rule on and changes nothing else. */
  function SetWinByTwoRuleTurn(g: GameState): (t: Turn)
    requires WellFormed(g)
    ensures WellFormed(t.state)
    ensures t.saved && t.reply == WinByTwoEnabled
    ensures t.state.mustWinByTwo
    ensures t.state.goalScore == g.goalScore && t.state.score == g.score
  {
    Turn(g.(mustWinByTwo := true), WinByTwoEnabled, true)
  }

  /**
    CheckScore never writes. With no game the read of the missing score map
    fails; otherwise the two totals, missing ones read as 0, are compared.
   */
  function CheckScoreTurn(g: GameState): (t: Turn)
    ensures !t.saved && t.state == g
    ensures g.score.None? <==> t.reply == UnknownFault
    ensures g.score.Some? ==>
      t.reply == Score(Classify(TotalOrZero(g.score.value, White), TotalOrZero(g.score.value, Orange)))
    ensures t.reply.Score? ==> !t.reply.comparison.Listing?
  {
    match g.score
    case None => Turn(g, UnknownFault, false)
    case Some(m) => Turn(g, Score(Classify(TotalOrZero(m, White), TotalOrZero(m, Orange))), false)
  }

  /** CheckGoalScore never writes and reports a goal exactly when it is above 0. */
  function CheckGoalScoreTurn(g: GameState): (t: Turn)
    ensures !t.saved && t.state == g
    ensures t.reply == Goal(GoalIsSet(g.goalScore)) <==> g.goalScore > 0
    ensures t.reply == Goal(GoalNotSet) <==> g.goalScore <= 0
  {
    Turn(g, Goal(CheckGoal(g.goalScore)), false)
  }

  // ---------------------------------------------------------------------------
  // Dispatch and sessions
  // ---------------------------------------------------------------------------

  /** The requests that reach a state handler, with their parsed slot values. */
  datatype Intent =
    | NewGame
    | AddScore(team: Team, points: Option<int>)
    | SubtractScore(team: Team, points: Option<int>)
    | SetScore(team: Team, points: Option<int>)
    | SetGoalScore(goal: Option<int>)
    | SetWinByTwoRule
    | CheckScore
    | CheckGoalScore

  /** A state-reading check that cannot change anything. */
  predicate IsQuery(i: Intent)
  {
    i.CheckScore? || i.CheckGoalScore?
  }

  /** Routes one request to its handler. */
  function Handle(g: GameState, i: Intent): (t: Turn)
    requires WellFormed(g)
    ensures WellFormed(t.state)
    ensures !t.saved ==> t.state == g
    ensures IsError(t.reply) ==> !t.saved
    ensures IsQuery(i) ==> !t.saved
    ensures !i.NewGame? && g.mustWinByTwo ==> t.state.mustWinByTwo
    ensures !i.NewGame? ==> t.state.score.None? == g.score.None?
    ensures !i.NewGame? && !i.SetGoalScore? ==> t.state.goalScore == g.goalScore
  {
    match i
    case NewGame => NewGameTurn(g)
    case AddScore(team, p) => AddScoreTurn(g, team, p)
    case SubtractScore(team, p) => SubtractScoreTurn(g, team, p)
    case SetScore(team, p) => SetScoreTurn(g, team, p)
    case SetGoalScore(goal) => SetGoalScoreTurn(g, goal)
    case SetWinByTwoRule => SetWinByTwoRuleTurn(g)
    case CheckScore => CheckScoreTurn(g)
    case CheckGoalScore => CheckGoalScoreTurn(g)
  }

  /** The stored state after a sequence of requests, each turn loading what the last one left. */
  function Session(g: GameState, intents: seq<Intent>): (s: GameState)
    requires WellFormed(g)
    ensures WellFormed(s)
    decreases |intents|
  {
    if intents == [] then g else Session(Handle(g, intents[0]).state, intents[1..])
  }

  // ---------------------------------------------------------------------------
  // The replies exactly as the handlers speak them
  // ---------------------------------------------------------------------------

  /** A reply that speaks a negative number of points. */
  predicate SpeaksNegative(r: Reply)
  {
    (r.PointsNow? && r.total < 0) || (r.ScoreSet? && r.total < 0) || (r.GoalSet? && r.goal < 0)
  }

  /** The same reply with its point form chosen by the rule as the handlers write it. */
  function WithPointFormAsWritten(r: Reply): (w: Reply)
    ensures r.PointsNow? ==> w == PointsNow(r.team, r.total, PointFormAsWritten(r.total))
    ensures r.ScoreSet? ==> w == ScoreSet(r.team, r.total, PointFormAsWritten(r.total))
    ensures r.GoalSet? ==> w == GoalSet(r.goal, PointFormAsWritten(r.goal))
    ensures !(r.PointsNow? || r.ScoreSet? || r.GoalSet?) ==> w == r
  {
    match r
    case PointsNow(team, total, _) => PointsNow(team, total, PointFormAsWritten(total))
    case ScoreSet(team, total, _) => ScoreSet(team, total, PointFormAsWritten(total))
    case GoalSet(goal, _) => GoalSet(goal, PointFormAsWritten(goal))
    case _ => r
  }

  /**
    AddScore exactly as written: the "must win by two" reply is chosen without
    asking whether a goal is set, and the point form is the written rule. It
    saves exactly what AddScoreTurn saves, and replies the same whenever a goal
    is set (or the rule is off) and no negative total is spoken.
   */
  function AddScoreTurnAsWritten(g: GameState, team: Team, points: Option<int>): (t: Turn)
    requires WellFormed(g)
    ensures t.state == AddScoreTurn(g, team, points).state
    ensures t.saved == AddScoreTurn(g, team, points).saved
    ensures g.goalScore > 0 || !g.mustWinByTwo ==>
      t.reply == WithPointFormAsWritten(AddScoreTurn(g, team, points).reply)
    ensures t.saved && g.goalScore <= 0 && g.mustWinByTwo && g.score.value[team] + points.value >= 0 ==>
      t.reply == MustWinByTwo(team, g.goalScore)
    ensures !t.saved ==> t.reply == AddScoreTurn(g, team, points).reply
    ensures t.saved ==>
      (t.reply.MustWinByTwo? <==> g.mustWinByTwo && g.score.value[team] + points.value >= g.goalScore)
    ensures t.saved && !t.reply.MustWinByTwo? ==>
      t.reply == PointsNow(team, g.score.value[team] + points.value, PointFormAsWritten(g.score.value[team] + points.value))
  {
    match points
    case None => Turn(g, InvalidPoints, false)
    case Some(p) =>
      match g.score
      case None => Turn(g, NoGameInProgress, false)
      case Some(m) =>
        var total := m[team] + p;
        if IsWin(g.goalScore, g.mustWinByTwo, total, m[Other(team)]) then
          Turn(g, GameOver(team, if g.mustWinByTwo then total else g.goalScore, g.mustWinByTwo), false)
        else
          var reply :=
            if MustWinByTwoReplyAsWritten(g.goalScore, g.mustWinByTwo, total) then MustWinByTwo(team, g.goalScore)
            else PointsNow(team, total, PointFormAsWritten(total));
          Turn(g.(score := Some(m[team := total])), reply, true)
  }

  /**
    Every handler exactly as written. The stored state and the saves are those
    of Handle; the reply differs only in the two corrected rules.
   */
  function HandleAsWritten(g: GameState, i: Intent): (t: Turn)
    requires WellFormed(g)
    ensures t.state == Handle(g, i).state && t.saved == Handle(g, i).saved
    ensures !i.AddScore? ==> t.reply == WithPointFormAsWritten(Handle(g, i).reply)
    ensures !SpeaksNegative(Handle(g, i).reply) && (!i.AddScore? || g.goalScore > 0 || !g.mustWinByTwo) ==>
      t.reply == Handle(g, i).reply
    ensures !t.saved ==> t.reply == Handle(g, i).reply
  {
    match i
    case AddScore(team, p) => AddScoreTurnAsWritten(g, team, p)
    case _ =>
      var c := Handle(g, i);
      Turn(c.state, WithPointFormAsWritten(c.reply), c.saved)
  }

  /**
    New game, rule on, one point for White: as written the reply is
    "white has reached 0 but they must win by two or more", while the
    corrected turn says "white now has 1 point".
   */
  lemma MustWinByTwoAtGoalZeroAsWritten()
    ensures WellFormed(FRESH_GAME)
    ensures WellFormed(SetWinByTwoRuleTurn(FRESH_GAME).state)
    ensures HandleAsWritten(SetWinByTwoRuleTurn(FRESH_GAME).state, AddScore(White, Some(1))).reply
      == MustWinByTwo(White, 0)
    ensures Handle(SetWinByTwoRuleTurn(FRESH_GAME).state, AddScore(White, Some(1))).reply
      == PointsNow(White, 1, Point)
  {
    FreshGameIsWellFormed();
    var g := SetWinByTwoRuleTurn(FRESH_GAME).state;
    assert g.score.value[White] == 0;
  }

  /**
    New game, then two points off White: as written the reply is
    "white now has -2 point", while the corrected turn says "-2 points".
   */
  lemma NegativeTotalAsWritten()
    ensures WellFormed(FRESH_GAME)
    ensures HandleAsWritten(FRESH_GAME, SubtractScore(White, Some(2))).reply == PointsNow(White, -2, Point)
    ensures Handle(FRESH_GAME, SubtractScore(White, Some(2))).reply == PointsNow(White, -2, Points)
  {
    FreshGameIsWellFormed();
    assert FRESH_GAME.score.value[White] == 0;
  }

  // ---------------------------------------------------------------------------
  // Properties across turns
  // ---------------------------------------------------------------------------

  /** NewGame leaves the same state whatever was stored before it. */
  lemma NewGameForgetsThePast(g: GameState, h: GameState)
    ensures NewGameTurn(g).state == NewGameTurn(h).state == FRESH_GAME
  {
  }

  /** A saved add of p followed by subtracting p restores the stored state exactly. */
  lemma AddThenSubtractRestores(g: GameState, team: Team, p: int)
    requires WellFormed(g)
    requires AddScoreTurn(g, team, Some(p)).saved
    ensures SubtractScoreTurn(AddScoreTurn(g, team, Some(p)).state, team, Some(p)).state == g
  {
    var m := g.score.value;
    var after := AddScoreTurn(g, team, Some(p)).state;
    assert after.score.value == m[team := m[team] + p];
    assert m[team := m[team] + p][team := m[team] + p - p] == m;
  }

  /** A subtract of p followed by adding p back restores the whole stored state whenever that add is saved. */
  lemma SubtractThenAddRestores(g: GameState, team: Team, p: int)
    requires WellFormed(g) && g.score.Some?
    ensures var back := AddScoreTurn(SubtractScoreTurn(g, team, Some(p)).state, team, Some(p));
      back.saved ==> back.state == g
  {
    var m := g.score.value;
    assert m[team := m[team] - p][team := m[team] - p + p] == m;
  }

  /** A win is not saved, so repeating the winning request wins again with the same reply. */
  lemma WinIsRepeatable(g: GameState, team: Team, points: Option<int>)
    requires WellFormed(g)
    requires AddScoreTurn(g, team, points).reply.GameOver?
    ensures var t := AddScoreTurn(g, team, points);
      AddScoreTurn(t.state, team, points) == t
  {
  }

  /** Switching the win-by-two rule on twice is the same as once. */
  lemma SetWinByTwoRuleIsIdempotent(g: GameState)
    requires WellFormed(g)
    ensures SetWinByTwoRuleTurn(SetWinByTwoRuleTurn(g).state) == SetWinByTwoRuleTurn(g)
  {
  }

  /** Setting a team's total to v makes CheckScore speak of v for that team. */
  lemma SetScoreThenCheckScore(g: GameState, team: Team, v: int)
    requires WellFormed(g) && g.score.Some?
    ensures var c := CheckScoreTurn(SetScoreTurn(g, team, Some(v)).state).reply.comparison;
      var other := g.score.value[Other(team)];
      && (v > other ==> c == Leading(team, v, other))
      && (v < other ==> c == Leading(Other(team), other, v))
      && (v == other ==> c == (if v == 0 then Scoreless else Tied(v)))
  {
    var m := g.score.value;
    var m' := m[team := v];
    var other := m[Other(team)];
    assert TotalOrZero(m', team) == v;
    assert TotalOrZero(m', Other(team)) == other by {
      assert Other(team) != team;
    }
    if team == Orange {
      ClassifyIsSymmetric(v, other);
    }
  }

  /** A fresh game scored 5 for White then checked reports White leading 5 to 0. */
  lemma FreshGameSetScoreExample()
    ensures WellFormed(FRESH_GAME)
    ensures CheckScoreTurn(SetScoreTurn(FRESH_GAME, White, Some(5)).state).reply == Score(Leading(White, 5, 0))
  {
    FreshGameIsWellFormed();
    SetScoreThenCheckScore(FRESH_GAME, White, 5);
  }

  /**
    Until a goal is set, CheckGoalScore reports none: from an empty store or a
    fresh game, no sequence of requests without SetGoalScore sets a goal.
   */
  lemma {:induction false} NoGoalUntilSet(g: GameState, intents: seq<Intent>)
    requires WellFormed(g) && g.goalScore == 0
    requires forall k :: 0 <= k < |intents| ==> !intents[k].SetGoalScore?
    ensures CheckGoalScoreTurn(Session(g, intents)).reply == Goal(GoalNotSet)
    decreases |intents|
  {
    if intents != [] {
      NoGoalUntilSet(Handle(g, intents[0]).state, intents[1..]);
    }
  }

  /** Checks alone never change what is stored. */
  lemma {:induction false} QueriesLeaveStateAlone(g: GameState, intents: seq<Intent>)
    requires WellFormed(g)
    requires forall k :: 0 <= k < |intents| ==> IsQuery(intents[k])
    ensures Session(g, intents) == g
    decreases |intents|
  {
    if intents != [] {
      QueriesLeaveStateAlone(Handle(g, intents[0]).state, intents[1..]);
    }
  }

  /** Without a NewGame, nothing switches the win-by-two rule off again. */
  lemma {:induction false} WinByTwoStaysOn(g: GameState, intents: seq<Intent>)
    requires WellFormed(g) && g.mustWinByTwo
    requires forall k :: 0 <= k < |intents| ==> !intents[k].NewGame?
    ensures Session(g, intents).mustWinByTwo
    decreases |intents|
  {
    if intents != [] {
      WinByTwoStaysOn(Handle(g, intents[0]).state, intents[1..]);
    }
  }

  /** Only NewGame creates a game: without one, a store with no game keeps having none. */
  lemma {:induction false} OnlyNewGameStartsAGame(g: GameState, intents: seq<Intent>)
    requires WellFormed(g) && g.score.None?
    requires forall k :: 0 <= k < |intents| ==> !intents[k].NewGame?
    ensures Session(g, intents).score.None?
    decreases |intents|
  {
    if intents != [] {
      OnlyNewGameStartsAGame(Handle(g, intents[0]).state, intents[1..]);
    }
  }

  /** A session ending in NewGame leaves a fresh game, whatever came before. */
  lemma {:induction false} LastNewGameWins(g: GameState, intents: seq<Intent>)
    requires WellFormed(g)
    requires intents != [] && intents[|intents| - 1] == NewGame
    ensures Session(g, intents) == FRESH_GAME
    decreases |intents|
  {
    if |intents| > 1 {
      LastNewGameWins(Handle(g, intents[0]).state, intents[1..]);
    }
  }
}

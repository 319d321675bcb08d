/**
  The side-effect-free rules of the score keeper: which team is the other one,
  the spoken form of a number of points, the win test of AddScore, the reply
  choice between "now has N" and "must win by two", the comparison CheckScore
  reports and the goal status CheckGoalScore reports.
 */
module Scoring {

  /** A slot value parsed as a number; None stands for a value that is not a number. */
  datatype Option<+T> = None | Some(value: T)

  /** The two fixed teams of a game. */
  datatype Team = White | Orange

  /** The opposing team, as AddScore picks it for the win-by-two test. */
  function Other(team: Team): (other: Team)
    ensures other != team
  {
    if team == White then Orange else White
  }

  // ---------------------------------------------------------------------------
  // Spoken point form
  // ---------------------------------------------------------------------------

  /** The noun spoken after a number: "point" or "points". */
  datatype PointForm = Point | Points

  /**
    The point-form rule exactly as the handlers write it: plural for 0, plural
    above 1, singular for everything else, negative numbers included.
   */
  function PointFormAsWritten(n: int): (form: PointForm)
    ensures form == Point <==> n == 1 || n < 0
  {
    if n == 0 then Points else if n > 1 then Points else Point
  }

  /** The rule the handlers evidently intend: singular for exactly one point. */
  function SpokenPointForm(n: int): (form: PointForm)
    ensures form == Point <==> n == 1
    ensures n >= 0 ==> form == PointFormAsWritten(n)
  {
    if n == 1 then Point else Points
  }

  /** A total of -2 is spoken "-2 point" as written, "-2 points" as intended. */
  lemma NegativeTotalIsSingularAsWritten()
    ensures PointFormAsWritten(-2) == Point
    ensures SpokenPointForm(-2) == Points
  {
  }

  // ---------------------------------------------------------------------------
  // Winning
  // ---------------------------------------------------------------------------

  /**
    The win test of AddScore for the acting team's new total: a goal is set
    (goal > 0), the total has reached it, and under the win-by-two rule the
    lead over the opposing team is more than one point.
   */
  predicate IsWin(goal: int, mustWinByTwo: bool, total: int, opponent: int): (win: bool)
    ensures win ==> total >= 1
    ensures win && mustWinByTwo ==> total >= opponent + 2
    ensures goal > 0 && !mustWinByTwo ==> (win <==> total >= goal)
  {
    && goal > 0
    && total >= goal
    && (mustWinByTwo ==> total - opponent > 1)
  }

  /** With goal 10 and no win-by-two rule, reaching 10 wins and 9 does not. */
  lemma GoalReachedExamples()
    ensures IsWin(10, false, 10, 9)
    ensures IsWin(10, false, 10, 10)
    ensures !IsWin(10, false, 9, 0)
  {
  }

  /** With goal 10 and the win-by-two rule, 10 against 9 is no win, 11 against 9 is. */
  lemma WinByTwoExamples()
    ensures !IsWin(10, true, 10, 9)
    ensures IsWin(10, true, 11, 9)
  {
  }

  /** A goal of 0 (unset) or below disables winning whatever the scores. */
  lemma UnsetGoalNeverWins(goal: int, mustWinByTwo: bool, total: int, opponent: int)
    requires goal <= 0
    ensures !IsWin(goal, mustWinByTwo, total, opponent)
  {
  }

  /** The win-by-two rule only ever removes wins, never adds one. */
  lemma WinByTwoIsStricter(goal: int, total: int, opponent: int)
    ensures IsWin(goal, true, total, opponent) ==> IsWin(goal, false, total, opponent)
    ensures IsWin(goal, false, total, opponent) && total - opponent >= 2 ==> IsWin(goal, true, total, opponent)
  {
  }

  /**
    The reply choice of a non-winning AddScore as written: "must win by two"
    whenever the total has reached the goal and the rule is on, without asking
    whether a goal is set at all.
   */
  predicate MustWinByTwoReplyAsWritten(goal: int, mustWinByTwo: bool, total: int): (says: bool)
    ensures says ==> mustWinByTwo
    ensures goal <= 0 && mustWinByTwo && total >= 0 ==> says
  {
    total >= goal && mustWinByTwo
  }

  /** The evidently intended choice: the same, but only when a goal is set. */
  predicate MustWinByTwoReply(goal: int, mustWinByTwo: bool, total: int): (says: bool)
    ensures says ==> MustWinByTwoReplyAsWritten(goal, mustWinByTwo, total)
    ensures says ==> total >= 1
  {
    goal > 0 && total >= goal && mustWinByTwo
  }

  /**
    Under the intended choice, "must win by two" on a non-winning add means
    exactly that the goal is reached and only the margin is missing.
   */
  lemma MustWinByTwoMeansMarginMissing(goal: int, mustWinByTwo: bool, total: int, opponent: int)
    requires !IsWin(goal, mustWinByTwo, total, opponent)
    ensures MustWinByTwoReply(goal, mustWinByTwo, total)
        <==> goal > 0 && total >= goal && mustWinByTwo && total - opponent <= 1
  {
  }

  /**
    As written, a game with no goal (0) and the rule on answers "has reached 0
    but they must win by two" to an add of one point, which is no near-win at all.
   */
  lemma UnsetGoalMustWinByTwoAsWritten()
    ensures !IsWin(0, true, 1, 0)
    ensures MustWinByTwoReplyAsWritten(0, true, 1)
    ensures !MustWinByTwoReply(0, true, 1)
  {
  }

  /** The two choices agree whenever a goal is set. */
  lemma MustWinByTwoReplyAgreesWhenGoalSet(goal: int, mustWinByTwo: bool, total: int)
    requires goal > 0
    ensures MustWinByTwoReply(goal, mustWinByTwo, total) == MustWinByTwoReplyAsWritten(goal, mustWinByTwo, total)
  {
  }

  // ---------------------------------------------------------------------------
  // Comparing the scores
  // ---------------------------------------------------------------------------

  /**
    What CheckScore reports. Listing is the final fallback that lists both
    scores; Classify never returns it.
   */
  datatype Comparison =
    | Leading(leader: Team, leaderScore: int, trailerScore: int)
    | Scoreless
    | Tied(at: int)
    | Listing(white: int, orange: int)

  /** The comparison of CheckScore, in the order the handler tests its cases. */
  function Classify(white: int, orange: int): (c: Comparison)
    ensures c == Leading(White, white, orange) <==> white > orange
    ensures c == Leading(Orange, orange, white) <==> orange > white
    ensures c == Scoreless <==> white == 0 && orange == 0
    ensures c == Tied(white) <==> white == orange && white != 0
    ensures !c.Listing?
  {
    if white > orange then Leading(White, white, orange)
    else if orange > white then Leading(Orange, orange, white)
    else if white == orange then
      if white == 0 then Scoreless else Tied(white)
    else Listing(white, orange)
  }

  /** The same comparison seen with the teams' roles exchanged. */
  function Mirror(c: Comparison): Comparison
  {
    match c
    case Leading(leader, l, t) => Leading(Other(leader), l, t)
    case Scoreless => Scoreless
    case Tied(at) => Tied(at)
    case Listing(w, o) => Listing(o, w)
  }

  /** Exchanging the two scores exchanges the leader and nothing else. */
  lemma ClassifyIsSymmetric(white: int, orange: int)
    ensures Classify(orange, white) == Mirror(Classify(white, orange))
  {
  }

  /** Sample comparisons: 0-0 is scoreless, 5-5 tied at 5, 7-3 White leading 7 to 3. */
  lemma ClassifyExamples()
    ensures Classify(0, 0) == Scoreless
    ensures Classify(5, 5) == Tied(5)
    ensures Classify(7, 3) == Leading(White, 7, 3)
    ensures Classify(-1, -1) == Tied(-1)
  {
  }

  // ---------------------------------------------------------------------------
  // Goal status
  // ---------------------------------------------------------------------------

  /** What CheckGoalScore reports. */
  datatype GoalStatus = GoalIsSet(goal: int) | GoalNotSet

  /** A goal counts as set exactly when it is above 0; 0 means unset. */
  function CheckGoal(goal: int): (status: GoalStatus)
    ensures status.GoalIsSet? <==> goal > 0
    ensures status.GoalIsSet? ==> status.goal == goal
  {
    if goal > 0 then GoalIsSet(goal) else GoalNotSet
  }
}

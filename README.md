# Score keeper: the game-state machine of a two-team voice scorekeeping skill

The skill keeps score for a game between team White and team Orange. Every
spoken request reaches one handler. The handler loads the persisted attributes,
applies one operation, and either saves the result or leaves the store as it
was. The persisted attributes are:

- `goalScore`, where 0 means no goal is set;
- `mustWinByTwo`, the win-by-two rule;
- `score`, a total for each team, absent until the first new game.

The model has three modules:

- `Scoring` (scoring.dfy) holds the rules that change nothing: the opposing
  team, the spoken "point"/"points" form, the win test of AddScore, the choice
  between the "now has N" and "must win by two" replies, the comparison
  CheckScore reports and the goal status CheckGoalScore reports.
- `Handlers` (handlers.dfy) has one function per handler. Each maps the loaded
  `GameState` and the parsed slot values to a `Turn`: the stored state
  afterwards, the reply variant, and whether the handler saved. A number slot
  is an `Option<int>`, with `None` for a value that is not a number. `Handle`
  dispatches on an `Intent` and `Session` runs one request after another. The
  lemmas there relate several turns.
- `Store` (store.dfy) models the persisted attributes as a class, `Attributes`,
  with one method per handler. AddScore and SubtractScore work on a local
  copy of the score map the way the handler works on the loaded object. The
  other methods assign the fields directly. Every method assigns the fields
  only where the handler saves. Its `ensures` equate the new state and the reply with the
  matching turn function. Its replies therefore follow the two corrected rules
  of "## Findings" rather than the handler's wording. CheckScore and
  CheckGoalScore only read.

Where the code throws (SubtractScore, SetScore and CheckScore when no game
exists, because `attributes.score` is undefined), the generic error handler
answers. That is the `UnknownFault` reply, and the state is unchanged.

Behaviour as written that the model keeps:

- A winning AddScore answers "game over" and returns before saving. The winning
  points are therefore not stored, and repeating the request wins again
  (`Handlers.WinIsRepeatable`).
- SubtractScore has no floor, so totals can go negative.
- SetGoalScore accepts 0 and negative goals, which leave winning switched off.
  It also works when no game exists.

Two results of the model differ from the code: the point form of a negative
number, and the "must win by two" reply when no goal is set. For these the model
uses the intended behaviour. The as-written behaviour is kept beside it:
`Handlers.HandleAsWritten` gives every handler's reply exactly as the code
speaks it, and it is proved to store and save exactly what `Handlers.Handle`
does (see "## Findings").

## Model

| member | source | states |
|---|---|---|
| `Scoring.Other` | index.js:82 | The opposing team differs from the acting team. |
| `Scoring.PointFormAsWritten` | index.js:99-104 | As written, the singular form is chosen exactly for 1 and for every negative number. |
| `Scoring.SpokenPointForm` | index.js:144-149 | The intended form is singular exactly for 1. It agrees with the as-written rule on every number from 0 up. |
| `Scoring.NegativeTotalIsSingularAsWritten` | index.js:184-189 | A value of -2 gets "point" as written and "points" as intended. |
| `Scoring.IsWin` | index.js:78-86 | A win needs a positive total. Under the rule, it needs a lead of at least two. With a goal set and the rule off, a win happens iff the total reaches the goal. |
| `Scoring.MustWinByTwoReplyAsWritten` | index.js:111 | As written, the "must win by two" reply needs the rule on. With goal 0 or below, it is chosen for every total from 0 up. |
| `Scoring.MustWinByTwoReply` | index.js:109-113 | The corrected choice only ever removes "must win by two" replies from the as-written choice. It never fires for a total below 1. |
| `Scoring.GoalReachedExamples` | index.js:78-79 | With goal 10 and no win-by-two rule, 10 wins (even against 10) and 9 does not. |
| `Scoring.WinByTwoExamples` | index.js:81-86 | With goal 10 and the win-by-two rule, 10 against 9 is no win and 11 against 9 is. |
| `Scoring.UnsetGoalNeverWins` | index.js:56 | A goal of 0 or below disables winning whatever the totals. |
| `Scoring.WinByTwoIsStricter` | index.js:81-86 | The win-by-two rule never adds a win. With a lead of two or more, it removes none. |
| `Scoring.MustWinByTwoMeansMarginMissing` | index.js:109-113 | With the corrected choice, a non-winning add says "must win by two" iff a goal is set and reached, the rule is on, and the lead is at most one. |
| `Scoring.UnsetGoalMustWinByTwoAsWritten` | index.js:111-113 | As written, goal 0 with the rule on and an add to 1 says "must win by two" though it is no near-win. The corrected choice does not. |
| `Scoring.MustWinByTwoReplyAgreesWhenGoalSet` | index.js:111 | The as-written and corrected reply choices agree whenever a goal is set. |
| `Scoring.Classify` | index.js:271-304 | White leads iff white > orange, and Orange leads iff orange > white, each reported with leader's then trailer's total. Scoreless iff both are 0. Tied at the value iff they are equal and nonzero. The fallback listing is never produced. |
| `Scoring.ClassifyIsSymmetric` | index.js:271-285 | Exchanging the two totals exchanges the leader and leaves every other outcome alone. |
| `Scoring.ClassifyExamples` | index.js:287-301 | 0-0 is scoreless, 5-5 is tied at 5, 7-3 is White leading 7 to 3, and -1 to -1 is tied at -1. |
| `Handlers.FreshGameIsWellFormed` | index.js:30-34 | The state a new game writes has a total for both teams. |
| `Handlers.NewGameTurn` | index.js:28-37 | NewGame always saves goal 0, the rule off and both totals 0, overwriting what was stored. |
| `Handlers.AddScoreTurn` | index.js:53-116 | A non-number is refused first and a missing game next, both with no save. A win happens iff a goal is set, the new total reaches it and (under the rule) the lead exceeds one. A win is reported with no save. Otherwise the acting team's total becomes old + points and is saved, with the other total, goal and rule unchanged. A win speaks the goal without the rule and the total with it. The reply is "must win by two" (with the goal) iff the corrected choice holds, and otherwise "now has" the new total with its spoken form. |
| `Handlers.SubtractScoreTurn` | index.js:128-157 | A non-number is refused with no save, and without a game the error handler answers with no save. Otherwise the total becomes old − points with no floor and is saved, and nothing else changes. |
| `Handlers.SetScoreTurn` | index.js:169-197 | A non-number is refused with no save, and without a game the error handler answers with no save. Otherwise the team's total becomes exactly the value and is saved, and nothing else changes. |
| `Handlers.SetGoalScoreTurn` | index.js:209-236 | A non-number is refused with the state unchanged and no save. Otherwise exactly goalScore becomes the value and is saved. |
| `Handlers.SetWinByTwoRuleTurn` | index.js:247-255 | The rule is switched on and saved. Goal and totals are unchanged. |
| `Handlers.CheckScoreTurn` | index.js:267-307 | The store is never written. The error handler answers iff no game exists. Otherwise the reply is the classification of the two totals (missing ones read as 0) and never the fallback. |
| `Handlers.CheckGoalScoreTurn` | index.js:318-333 | The store is never written. "Set" with the goal iff goalScore > 0, otherwise "not set". |
| `Handlers.Handle` | index.js:413-428 | Every request keeps the state well formed. Any turn without a save leaves the state unchanged. Error replies and checks never save. Only NewGame can switch the rule off or change whether a game exists. Only NewGame and SetGoalScore change the goal. |
| `Handlers.Session` | index.js:53 | Applying requests one after another, each loading what the last one left, keeps the state well formed. |
| `Handlers.AddScoreTurnAsWritten` | index.js:53-116 | AddScore with the handler's own reply rules. It stores and saves exactly what AddScoreTurn does. Its reply is AddScoreTurn's with the written point form whenever a goal is set or the rule is off. Every unsaved reply (a non-number, no game, a win) is AddScoreTurn's. A saved add says "must win by two" iff the rule is on and the new total has reached the goal, whether or not a goal is set; otherwise it speaks the new total with the written point form. |
| `Handlers.HandleAsWritten` | index.js:413-428 | Every handler with its own reply rules. It stores and saves exactly what Handle does. Its reply equals Handle's unless a negative number is spoken or an AddScore meets the rule with no goal set, and always when the turn saves nothing. |
| `Handlers.MustWinByTwoAtGoalZeroAsWritten` | index.js:111-112 | New game, rule on, add 1 to White: as written, "white has reached 0 but they must win by two". The corrected turn gives "white now has 1 point". |
| `Handlers.NegativeTotalAsWritten` | index.js:145-148 | New game, subtract 2 from White: as written, "white now has -2 point". The corrected turn gives "-2 points". |
| `Handlers.NewGameForgetsThePast` | index.js:30-37 | NewGame leaves the same fresh state whatever was stored before. |
| `Handlers.AddThenSubtractRestores` | index.js:74-76 | A saved (non-winning) add of p followed by subtracting p restores the whole stored state. |
| `Handlers.SubtractThenAddRestores` | index.js:140-142 | Subtracting p and then adding p back restores the stored state whenever that add is saved. |
| `Handlers.WinIsRepeatable` | index.js:88-97 | Because a win is not saved, repeating the winning request gives the same reply and state. |
| `Handlers.SetWinByTwoRuleIsIdempotent` | index.js:248 | Switching the rule on twice gives the same turn as once. |
| `Handlers.SetScoreThenCheckScore` | index.js:181-182 | After setting a team's total to v, CheckScore compares v with the other team's total: leading, trailing, tied at v, or scoreless. |
| `Handlers.FreshGameSetScoreExample` | index.js:181-182 | A new game with White set to 5 checks as White leading 5 to 0. |
| `Handlers.NoGoalUntilSet` | index.js:319-331 | From a state with goal 0 (an empty store or a fresh game), CheckGoalScore reports no goal after any sequence of requests without SetGoalScore. |
| `Handlers.QueriesLeaveStateAlone` | index.js:267-333 | Any sequence of CheckScore and CheckGoalScore requests leaves the store exactly as it was. |
| `Handlers.WinByTwoStaysOn` | index.js:248 | Once the rule is on, no sequence of requests without NewGame switches it off. |
| `Handlers.OnlyNewGameStartsAGame` | index.js:68-72 | With no game stored, no sequence of requests without NewGame creates one. |
| `Handlers.LastNewGameWins` | index.js:30-37 | A sequence ending in NewGame leaves exactly the fresh game, whatever came before. |
| `Store.Attributes.constructor` | index.js:267 | An empty store holds goal 0, the rule off and no game. |
| `Store.Attributes.NewGame` | index.js:27-42 | The fields become those of a fresh game and the reply is "game started". |
| `Store.Attributes.AddScore` | index.js:50-117 | New fields and reply are those of AddScoreTurn. Fields are untouched on a win and on every error. |
| `Store.Attributes.SubtractScore` | index.js:125-158 | New fields and reply are those of SubtractScoreTurn. Fields are untouched on every error. |
| `Store.Attributes.SetScore` | index.js:166-198 | New fields and reply are those of SetScoreTurn. Fields are untouched on every error. |
| `Store.Attributes.SetGoalScore` | index.js:206-237 | New fields and reply are those of SetGoalScoreTurn. Fields are untouched when the goal is not a number. |
| `Store.Attributes.SetWinByTwoRule` | index.js:245-257 | New fields and reply are those of SetWinByTwoRuleTurn. |
| `Store.Attributes.CheckScore` | index.js:265-308 | The method only reads the store; the error reply comes iff no game exists. Equal totals give scoreless at 0 and tied otherwise. Unequal totals give the larger one's team leading, with leader's then trailer's total. The fallback never occurs. |
| `Store.Attributes.CheckGoalScore` | index.js:316-333 | The method only reads the store. It reports the goal as set iff goalScore > 0. |
| `Store.ExampleSession` | index.js:74-113 | On one store: new game, goal 10, rule on and Orange at 9. White adding 10 hears "must win by two". White adding 1 more wins at 11. That win is not saved, so CheckScore still reports White leading 10 to 9. |

## Left out

- Request routing: the `canHandle` tests on request type and intent name, the response builder, reprompts and the skill builder's handler chain are platform plumbing. `Handle` matches on an `Intent` instead.
- Persistence: the S3 adapter and the asynchronous load and save calls are I/O. The store is the `Attributes` object (or the `state` of a `Turn`), and a handler either assigns it or leaves it alone. `Turn.saved` records whether it saved.
- Number parsing: JavaScript's `Number()` conversion of slot strings is not modelled. That leaves out decimals, hexadecimal and the empty string read as 0. A slot value is an `Option<int>`, with `None` for the not-a-number case.
- Number width: totals and goals are JavaScript doubles in the source, so sums beyond 2^53 round there. The model's `int` is exact and does not round.
- Team slot: only White and Orange are modelled. Another team name would give `undefined` arithmetic in the source.
- Absent fields: a goal or rule field missing from storage is modelled as 0 or false. Every test the handlers apply to those fields agrees with that, because a score map exists only after NewGame has written both fields.
- Falsy totals: CheckScore's `|| 0` is modelled, by the helper `Handlers.TotalOrZero`, only for a missing total. Its effect on other JavaScript falsy values is not modelled, because the integer model cannot hold them.
- Handlers.AddScoreTurn: uses the corrected "must win by two" choice and the corrected point form. Handlers.AddScoreTurnAsWritten holds the handler's own replies.
- Handlers.SubtractScoreTurn: uses the corrected point form. Handlers.HandleAsWritten holds the handler's own reply.
- Handlers.SetScoreTurn: uses the corrected point form. Handlers.HandleAsWritten holds the handler's own reply.
- Handlers.SetGoalScoreTurn: uses the corrected point form. Handlers.HandleAsWritten holds the handler's own reply.
- Store.Attributes.SubtractScore: its reply uses the corrected point form, so a negative total is spoken "points" where the handler says "point". Handlers.HandleAsWritten holds the handler's own reply.
- Store.Attributes.SetScore: its reply uses the corrected point form, so a negative value is spoken "points" where the handler says "point". Handlers.HandleAsWritten holds the handler's own reply.
- Store.Attributes.SetGoalScore: its reply uses the corrected point form, so a negative goal is spoken "points" where the handler says "point". Handlers.HandleAsWritten holds the handler's own reply.
- Store.Attributes.AddScore: its reply follows the corrected rules, so it differs from the handler when the goal is 0 or below and the rule is on, or when a negative total is spoken. Its stored state is the handler's.
- Spoken text: the exact wording and templating of the replies is not modelled. The model keeps only the reply variant and the values it speaks.
- Boilerplate handlers: Launch, Help, Cancel/Stop, SessionEnded and IntentReflector change no state and are not modelled. The error handler's logging is not modelled either; its spoken apology is the `UnknownFault` reply.
- Asynchrony and concurrency: each turn is one sequential step.

## Findings

| source | as written | input that shows it | evidently intended | confidence | as-written member | corrected member |
|---|---|---|---|---|---|---|
| index.js:99-104 | The plural is chosen only for 0 and for values above 1, so every negative value is spoken with "point". The same rule is repeated at 144-149, 184-189 and 223-228. | New game, then subtract 2 from White: "white now has -2 point." | Singular only for exactly one point. | not executed; medium | `Handlers.NegativeTotalAsWritten` | `Scoring.SpokenPointForm` |
| index.js:111-113 | The "must win by two" reply is chosen by `goalScoreIsMet && mustWinByTwo`, without `goalScoreIsSet`. | New game (goal 0), rule on, add 1 to White: "white has reached 0 but they must win by two or more." | Only when a goal is set, reached, and the lead is the only thing missing. | not executed; high | `Handlers.MustWinByTwoAtGoalZeroAsWritten` | `Scoring.MustWinByTwoMeansMarginMissing` |

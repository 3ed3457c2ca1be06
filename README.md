# Prime-minister simulation: the game-state machine of game.js

This project models the rules of the browser game in `game.js`. The player is a
freshman member of the House of Representatives and has 48 months to become
prime minister. Each month the player picks one of four actions: a local
campaign, a fundraising party, policy study or a faction meeting. Each action
has a cost in man-yen and changes the player's funds, approval and influence.
Every accepted action is followed by one month of upkeep (`nextTurn`), which
does the following:

- it charges 20 man-yen;
- it lowers approval by half a point, floored at zero;
- it checks for a promotion;
- it advances the month and runs the game-over checks of `updateUI`;
- every twelfth month, it applies a random economic swing to approval;
- in month 48, it gives the end-of-term verdict.

The session is one mutable object, as it is in `game.js`:

- `Session.Game` is a class whose fields are `game.turn`, `game.gameOver`, the
  fields of `player` and the message area.
- Its methods `PerformAction`, `NextTurn`, `ApplyEffect`, `CheckPromotion`,
  `GameOverCheck`, `CheckWinCondition`, `EndGame` and `DisplayMessage` update
  those fields step by step, in the same order as the JavaScript.
- Each method is proved to leave the session in the state that a function of
  module `Rules` gives for the old state, for example
  `Snapshot() == AfterNextTurn(old(Snapshot()), swingDraw)`.
- The game's promises are proved about those functions: in their `ensures`
  clauses, and in the lemmas of `Properties` about whole games, which are
  sequences of actions.

Modelling choices:

- Approval is an integer count of half percentage points (`approvalHalves`).
  Every change the game makes to approval is a multiple of 0.5, so this is
  exact. The thresholds of 10%, 50% and 60% become 20, 100 and 120.
- Each call of `Math.random` becomes a parameter of type `RandomDraw`, a real
  in [0, 1). The game's integer amounts are computed from it by the game's
  formulas: `floor(r*200)+100`, `floor(r*5)+1` and `floor(r*10)-5`. Their
  ranges are proved, and so is the fact that every value in each range can be
  drawn.
- The message area is a sequence of `Entry(month, message)` values, newest
  first. `Message` has one constructor per distinct message the game displays
  (the four action reports share the one call at game.js:128). The wording of
  the messages is left out.
- The name prompt is a parameter, `PromptReply = Cancelled | Entered(text)`.
  A cancelled or empty reply falls back to 田中太郎.

The model follows the order of `nextTurn` as written, and the lemmas record
three consequences of that order:

- The economic swing comes after the game-over check of the same month, so a
  running game can end a month with approval below 10% (`SwingAfterCheck`).
- When funds and approval are both too low, `endGame` runs twice in one check
  (`AfterGameOverCheck`).
- The end-of-term verdict runs even if the game ended earlier in the same
  month. A last month can therefore announce the loss of support and then the
  win (`LostSupportThenWon`).

`game.js` has no elections, polls, seat counts, player age or prime-minister
ascension that lets the game go on; the game ends at the verdict of month 48,
and the model has none of these either. Two facts about the code as written:

- The comment at game.js:34 says a fundraising party brings in 100 to 300
  man-yen, but floor(r*200)+100 with r in [0, 1) never reaches 300: the
  gain ranges over exactly 100..299 (`FundraisingGainRange`).
- Each accepted action is followed by a month of upkeep, so an action costs
  its catalog price plus 20 man-yen: five campaigns from the start leave 150
  of the 500 man-yen (`FiveCampaigns`).

## Model

| member | source | states |
|---|---|---|
| Draws.FundraisingGain | game.js:34 | the money a fundraising party raises is between 100 and 299 man-yen |
| Draws.FundraisingGainRange | game.js:34 | an amount can be raised if and only if it lies in 100..299 |
| Draws.InfluenceGain | game.js:54 | a faction meeting raises influence by 1 to 5 |
| Draws.InfluenceGainRange | game.js:54 | an influence gain is possible if and only if it lies in 1..5 |
| Draws.EconomicSwing | game.js:153 | the twelve-month swing is between -5 and +4 points |
| Draws.EconomicSwingRange | game.js:153 | a swing is possible if and only if it lies in -5..4, so the swing is biased downward |
| Catalog.EffectDelta | game.js:20-60 | each effect deducts exactly its catalog cost, and only fundraising brings money in; influence never falls and rises exactly for fundraising and faction meetings; approval moves by at most -1..+3 points and falls only at a faction meeting |
| Catalog.AffordableEffectKeepsFunds | game.js:121-127 | when the funds cover an action's cost, its effect leaves them non-negative |
| Messages.Prepended | game.js:85-97 | after a message is displayed, the area holds at most 20 entries; the new entry is first and the earlier ones follow in order |
| Messages.PrependedOnFull | game.js:92-96 | on a full area, displaying a message drops exactly the oldest entry |
| Rules.PlayerName | game.js:105-106 | the name is never empty; it is the default 田中太郎 exactly when the prompt was cancelled, left empty, or answered with that name |
| Rules.InitialState | game.js:5-17 | the starting session is well-formed and running, and its only message is the welcome in month 1 |
| Rules.AfterEndGame | game.js:186-190 | the game is over; nothing else changes except the messages, whose newest two are the ending and then the banner, stamped with the current month |
| Rules.AfterGameOverCheck | game.js:76-82 | afterwards the game is over if and only if it was over, the funds are negative or approval is below 10%; no other field changes; nothing changes when neither check fires; when both fire, two endings are displayed |
| Rules.AfterPromotion | game.js:163-174 | rank moves up at most one rung and never down; each rung is taken exactly when a representative on the rung below meets its influence and approval thresholds; the position changes only on the step to minister rank, and then to deputy chief cabinet secretary; nothing else changes; the step to vice-minister rank displays PromotedToViceMinister and the step to minister rank AppointedDeputyChiefCabinetSecretary, stamped with the current month in front of the older messages |
| Rules.AfterWinCheck | game.js:177-183 | the game always ends; the verdict is a win exactly when the player is deputy chief cabinet secretary with influence of at least 150 and funds of at least 5000; the banner matches the verdict |
| Catalog.Cost | game.js:20-60 | only the faction meeting is free, and the campaign at 50 man-yen is the dearest action |
| Rules.Report | game.js:24-58 | the message each effect returns names the amount the effect actually added: the fundraising gain, or the faction meeting's influence gain |
| Rules.AfterEffect | game.js:24-58 | only funds, approval and influence change; the funds change is the fundraising gain (if any) less the action's cost, so an affordable effect leaves funds non-negative; influence never falls |
| Rules.AfterUpkeep | game.js:139-142 | funds fall by exactly 20, no other field but approval changes, and approval falls by exactly half a point unless that would take it below zero, where it stops at zero |
| Rules.Logged | game.js:85-97 | displaying a message changes only the message area; the new entry is stamped with the current month and comes first, the earlier entries follow in order, and at most 20 remain |
| Rules.AfterSwing | game.js:151-154 | outside a twelfth month nothing changes; in a twelfth month the economic news is displayed in that month and approval moves by exactly the drawn swing, with no clamp, and no other field changes |
| Rules.AfterNextTurn | game.js:135-160 | a finished game does not change; a running one pays 20, keeps its influence and advances one month; approval becomes max(0, a-0.5), plus the unclamped swing every twelfth month; rank and position are judged after upkeep; the game ends exactly on insolvency, on approval below 10% before the swing, or in month 48, and then the verdict is a win exactly under the win condition |
| Rules.AfterAction | game.js:113-132 | when the game is over, only a message is added; when the action is unaffordable, only the shortfall message is added; otherwise exactly one month passes, funds and influence change by the effect's delta less 20 of upkeep, approval becomes max(0, a + effect - 0.5) plus the swing every twelfth month, and the game ends exactly on insolvency, on approval below 10% after effect and decay, or in month 48 |
| Rules.NextTurnKeepsWellFormed | game.js:135-160 | a month keeps the month within the term, a running game solvent, at most 20 messages, and the cabinet post tied to minister rank |
| Rules.ActionKeepsWellFormed | game.js:113-132 | every call of performAction keeps those properties |
| Session.Game.constructor | game.js:104-110 | the new session is the initial state for the prompt reply, and it is well-formed |
| Session.Game.DisplayMessage | game.js:85-97 | the in-place prepend-and-trim loop leaves the session as Logged of the old one: the capped log of Prepended with the entry stamped with the current month, and no other field changed |
| Session.Game.EndGame | game.js:186-190 | the session becomes AfterEndGame of the old one |
| Session.Game.GameOverCheck | game.js:76-82 | the session becomes AfterGameOverCheck of the old one |
| Session.Game.CheckPromotion | game.js:163-174 | the session becomes AfterPromotion of the old one |
| Session.Game.CheckWinCondition | game.js:177-183 | the session becomes AfterWinCheck of the old one |
| Session.Game.NextTurn | game.js:135-160 | the session becomes AfterNextTurn of the old one, and stays well-formed |
| Session.Game.ApplyEffect | game.js:24-58 | campaign: +3 approval and -50 funds; fundraising: +gain-10 funds and +1 influence; policy: +1 approval and -30 funds; faction meeting: +gain influence and -1 approval; returns the effect's report |
| Session.Game.PerformAction | game.js:113-132 | the session becomes AfterAction of the old one, and stays well-formed |
| Properties.PlayKeepsWellFormed | game.js:113-160 | no sequence of actions breaks the well-formedness properties |
| Properties.PlayProgresses | game.js:113-160 | over any sequence of actions, a finished game stays finished, and the month, influence and rank never go back |
| Properties.PlayAfterGameOver | game.js:114-117 | once the game is over, any further actions change nothing but the messages |
| Properties.MonthsAreAcceptedActions | game.js:121-131 | the month advances by exactly the number of accepted actions |
| Properties.AcceptedWithinTerm | game.js:157-159 | a game accepts at most 47 actions, and accepting the 47th ends it |
| Properties.SwingAfterCheck | game.js:147-154 | a well-formed running game can end a month still running with approval below 10% |
| Properties.LostSupportThenWon | game.js:147-159 | a last month can display the loss of support and then the winning verdict |
| Properties.CampaignMonth | game.js:21-28 | an affordable campaign in a month without news or verdict nets +2.5 approval and -70 funds, and advances one month |
| Properties.FiveCampaigns | game.js:21-28 | five campaigns from the start leave 150 man-yen, 52.5% approval and month 6, with the game still running |

## Left out

- The DOM work is left out: writing the status fields and formatting them with `toFixed` (game.js:68-74), creating the message elements, the `innerHTML` rewrite of the action panel in `endGame` (game.js:191), and `window.onload` (game.js:195).
- The wording of messages and action titles is left out. Each message is an abstract `Message` value that carries the numbers the text interpolates.
- The `isEvent` argument of `displayMessage` is left out, because its body never uses it.
- `prompt` is user I/O; its reply is a parameter. The placeholder name 新人議員 A (game.js:11) is always overwritten by initializeGame, so the model does not keep it.
- `Math.random` is a parameter: each call is a `RandomDraw` argument.
- The products r*200, r*5 and r*10 are exact reals here. JavaScript rounds them to a double before `Math.floor`, so a draw just below a boundary can yield the next integer in the game but not in the model. Each formula yields the same set of amounts in both, so the proved ranges are those of the game.
- Floating-point approval is replaced by exact half-points, which represent every value the game can reach. JavaScript doubles hold these values exactly as well, so no rounding is lost.
- Unknown action ids are left out. `ActionId` has one value per key of the `actions` table, so the crash at game.js:121 on an unknown key cannot be expressed.

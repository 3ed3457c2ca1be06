/** The game's rules as functions on a value of the session state: the
    module-level `game` and `player` objects of game.js (lines 5-17) together
    with the message area. Each function gives the state after one routine of
    game.js; the class Session.Game performs the same routines field by field
    and is proved to agree with these functions. */
module Rules {
  import opened Draws
  import opened Catalog
  import opened Messages

  /** player.position: 衆議院議員 and 内閣官房副長官. */
  datatype Position = Representative | DeputyChiefCabinetSecretary

  /** player.partyRank: 平議員, 副大臣級 and 大臣級. */
  datatype Rank = Backbencher | ViceMinisterTier | MinisterTier

  /** The rung of the ladder a rank stands on. */
  function Level(rank: Rank): nat
  {
    match rank
    case Backbencher => 0
    case ViceMinisterTier => 1
    case MinisterTier => 2
  }

  /** The month whose arrival ends the term (game.js:157). */
  const TermMonths := 48

  /** Approval below this many half points ends the game (10%, game.js:80). */
  const LowApproval := Halves(10)

  /** What `prompt` returned when the game asked for the player's name. */
  datatype PromptReply = Cancelled | Entered(text: string)

  /** The name used when the prompt is cancelled or left empty (game.js:105-106). */
  const DefaultName := "田中太郎"

  datatype State = State(
    name: string,
    turn: int,             // game.turn, the month
    gameOver: bool,        // game.gameOver
    funds: int,            // player.funds, in man-yen
    approvalHalves: int,   // player.approval, in half percentage points
    influence: int,        // player.influence
    position: Position,
    rank: Rank,
    log: seq<Entry>)       // the message area, newest first

  function Max(a: int, b: int): int
  {
    if a < b then b else a
  }

  /** The properties every state reachable from the start keeps: the month
      stays within the term, a running game is solvent, the message area is
      capped, and the cabinet post is held exactly at minister rank. */
  predicate WellFormed(s: State)
  {
    && 1 <= s.turn <= TermMonths
    && (!s.gameOver ==> s.turn < TermMonths && s.funds >= 0)
    && |s.log| <= MaxMessages
    && (s.position == DeputyChiefCabinetSecretary <==> s.rank == MinisterTier)
  }

  /** The player's name after the prompt: the reply, unless it is null or empty. */
  function PlayerName(reply: PromptReply): (name: string)
    ensures name != []
    ensures name == DefaultName <==> !reply.Entered? || reply.text in {[], DefaultName}
  {
    if reply.Entered? && reply.text != [] then reply.text else DefaultName
  }

  /** The state after initializeGame (game.js:5-17, 104-110), before its
      game-over check, which never fires on it. */
  function InitialState(reply: PromptReply): (s: State)
    ensures WellFormed(s) && !s.gameOver
    ensures s.log == [Entry(1, Welcome(PlayerName(reply)))]
  {
    var name := PlayerName(reply);
    State(name, 1, false, 500, Halves(40), 10, Representative, Backbencher,
          Prepended([], Entry(1, Welcome(name))))
  }

  /** displayMessage on the state: the entry is stamped with the current month. */
  function Logged(s: State, m: Message): (t: State)
    // only the messages change; the newest is `m`, stamped with the current month
    ensures t == s.(log := t.log)
    ensures |t.log| == if |s.log| < MaxMessages then |s.log| + 1 else MaxMessages
    ensures t.log[0] == Entry(s.turn, m)
    ensures forall i :: 0 < i < |t.log| ==> t.log[i] == s.log[i - 1]
  {
    s.(log := Prepended(s.log, Entry(s.turn, m)))
  }

  /** endGame (game.js:186-192): the game is over; a banner and then the
      ending are displayed, so the ending is the newest message. */
  function AfterEndGame(s: State, reason: EndReason, isWin: bool): (t: State)
    ensures t.gameOver
    ensures t == s.(gameOver := true, log := t.log)
    ensures |t.log| >= 2
    ensures t.log[0] == Entry(s.turn, Ending(reason))
    ensures t.log[1] == Entry(s.turn, EndBanner(isWin))
  {
    Logged(Logged(s.(gameOver := true), EndBanner(isWin)), Ending(reason))
  }

  /** The game-over checks of updateUI (game.js:77-82). */
  function AfterGameOverCheck(s: State): (t: State)
    // afterwards, insolvency or approval below 10% means the game is over
    ensures t.gameOver <==> s.gameOver || s.funds < 0 || s.approvalHalves < LowApproval
    // only the flag and the messages change, and nothing at all when neither check fires
    ensures t == s.(gameOver := t.gameOver, log := t.log)
    ensures s.funds >= 0 && s.approvalHalves >= LowApproval ==> t == s
    // when both fire, endGame runs twice: bankruptcy first, then loss of support
    ensures s.funds < 0 && s.approvalHalves < LowApproval ==>
              |t.log| >= 4 && t.log[0].message == Ending(LostSupport) && t.log[2].message == Ending(Bankrupt)
  {
    var s1 := if s.funds < 0 then AfterEndGame(s, Bankrupt, false) else s;
    if s1.approvalHalves < LowApproval then AfterEndGame(s1, LostSupport, false) else s1
  }

  /** checkPromotion (game.js:163-174). */
  function AfterPromotion(s: State): (t: State)
    // at most one rung per call, never down
    ensures Level(s.rank) <= Level(t.rank) <= Level(s.rank) + 1
    // only a representative is promoted
    ensures s.position != Representative ==> t == s
    // each rung is taken exactly when its thresholds are met
    ensures t.rank == ViceMinisterTier && s.rank != t.rank <==>
              s.position == Representative && s.rank == Backbencher &&
              s.influence >= 50 && s.approvalHalves >= Halves(50)
    ensures t.rank == MinisterTier && s.rank != t.rank <==>
              s.position == Representative && s.rank == ViceMinisterTier &&
              s.influence >= 100 && s.approvalHalves >= Halves(60)
    // the position moves only with the step to minister rank, to the cabinet post
    ensures t.position != s.position <==> s.rank == ViceMinisterTier && t.rank == MinisterTier
    ensures t.position != s.position ==> t.position == DeputyChiefCabinetSecretary
    // nothing but rank, position and the messages changes; no promotion, no message
    ensures t == s.(rank := t.rank, position := t.position, log := t.log)
    ensures t.rank == s.rank ==> t == s
    // each promotion is announced in the current month, in front of the older messages
    ensures t.rank == ViceMinisterTier && s.rank != t.rank ==>
              t.log == Prepended(s.log, Entry(s.turn, PromotedToViceMinister))
    ensures t.rank == MinisterTier && s.rank != t.rank ==>
              t.log == Prepended(s.log, Entry(s.turn, AppointedDeputyChiefCabinetSecretary))
  {
    if s.position != Representative then s
    else if s.influence >= 50 && s.approvalHalves >= Halves(50) && s.rank == Backbencher then
      Logged(s.(rank := ViceMinisterTier), PromotedToViceMinister)
    else if s.influence >= 100 && s.approvalHalves >= Halves(60) && s.rank == ViceMinisterTier then
      Logged(s.(rank := MinisterTier, position := DeputyChiefCabinetSecretary),
             AppointedDeputyChiefCabinetSecretary)
    else s
  }

  /** checkWinCondition (game.js:177-183): the game always ends here. */
  function AfterWinCheck(s: State): (t: State)
    ensures t.gameOver
    ensures t == s.(gameOver := true, log := t.log)
    ensures |t.log| >= 2
    // the verdict is a win exactly for a deputy chief cabinet secretary with
    // influence 150 and funds 5000
    ensures t.log[0].message == Ending(BecamePrimeMinister) <==>
              s.position == DeputyChiefCabinetSecretary && s.influence >= 150 && s.funds >= 5000
    ensures t.log[0].message in {Ending(BecamePrimeMinister), Ending(TermEnded)}
    ensures t.log[1].message == EndBanner(t.log[0].message == Ending(BecamePrimeMinister))
  {
    if s.position == DeputyChiefCabinetSecretary && s.influence >= 150 && s.funds >= 5000 then
      AfterEndGame(s, BecamePrimeMinister, true)
    else
      AfterEndGame(s, TermEnded, false)
  }

  /** The upkeep of one month (game.js:139-142): 20 man-yen, and half a point
      of approval, floored at zero. */
  function AfterUpkeep(s: State): (t: State)
    ensures t == s.(funds := t.funds, approvalHalves := t.approvalHalves)
    ensures t.funds == s.funds - 20
    // approval drops by exactly half a point, unless that would take it below zero
    ensures t.approvalHalves >= 0
    ensures s.approvalHalves >= 1 ==> t.approvalHalves == s.approvalHalves - 1
    ensures s.approvalHalves <= 1 ==> t.approvalHalves == 0
  {
    s.(funds := s.funds - 20, approvalHalves := Max(0, s.approvalHalves - 1))
  }

  /** The economic news of every twelfth month (game.js:151-154): the news is
      displayed, then approval swings, with no clamp. */
  function AfterSwing(s: State, r: RandomDraw): (t: State)
    // outside a twelfth month nothing happens
    ensures s.turn % 12 != 0 ==> t == s
    // in a twelfth month the news is displayed in that month and approval
    // moves by the drawn swing, which may take it below zero
    ensures s.turn % 12 == 0 ==>
              t == s.(approvalHalves := t.approvalHalves, log := t.log) &&
              t.approvalHalves == s.approvalHalves + Halves(EconomicSwing(r)) &&
              t.log == Prepended(s.log, Entry(s.turn, EconomicNews))
  {
    if s.turn % 12 == 0 then
      var news := Logged(s, EconomicNews);
      news.(approvalHalves := news.approvalHalves + Halves(EconomicSwing(r)))
    else s
  }

  /** nextTurn (game.js:135-160), with `r` the draw of the economic swing. */
  function AfterNextTurn(s: State, r: RandomDraw): (t: State)
    // a finished game does not move
    ensures s.gameOver ==> t == s
    // a running game pays 20, keeps its influence, and advances one month
    ensures !s.gameOver ==> t.turn == s.turn + 1 && t.funds == s.funds - 20 && t.influence == s.influence
    // approval loses half a point (not below zero), then swings every twelfth month, unclamped
    ensures !s.gameOver ==>
              t.approvalHalves == Max(0, s.approvalHalves - 1) +
                                  (if t.turn % 12 == 0 then Halves(EconomicSwing(r)) else 0)
    // promotion is judged on the state after upkeep
    ensures !s.gameOver ==>
              t.rank == AfterPromotion(AfterUpkeep(s)).rank &&
              t.position == AfterPromotion(AfterUpkeep(s)).position
    // the game ends this month exactly on insolvency, on low approval before
    // the swing, or at the end of the term
    ensures !s.gameOver ==>
              (t.gameOver <==> s.funds < 20 || Max(0, s.approvalHalves - 1) < LowApproval || t.turn >= TermMonths)
    // at the end of the term the newest message is the verdict
    ensures !s.gameOver && t.turn >= TermMonths ==>
              |t.log| > 0 &&
              (t.log[0].message == Ending(BecamePrimeMinister) <==>
                 t.position == DeputyChiefCabinetSecretary && t.influence >= 150 && t.funds >= 5000)
  {
    if s.gameOver then s
    else
      var promoted := AfterPromotion(AfterUpkeep(s));
      var checked := AfterGameOverCheck(promoted.(turn := promoted.turn + 1));
      var swung := AfterSwing(checked, r);
      if swung.turn >= TermMonths then AfterWinCheck(swung) else swung
  }

  /** The message an effect closure returns. */
  function Report(id: ActionId, r: RandomDraw): (m: Message)
    // the report names the amount the effect actually added
    ensures id == Fundraising ==> m.RaisedFunds? && m.gain == EffectDelta(id, r).funds + Cost(id)
    ensures id == FactionMeeting ==> m.MetFaction? && m.influenceGain == EffectDelta(id, r).influence
    ensures id == Campaign ==> m == Campaigned
    ensures id == Policy ==> m == StudiedPolicy
  {
    match id
    case Campaign => Campaigned
    case Fundraising => RaisedFunds(FundraisingGain(r))
    case Policy => StudiedPolicy
    case FactionMeeting => MetFaction(InfluenceGain(r))
  }

  /** The effect closure of action `id` applied to the player (game.js:24-58). */
  function AfterEffect(s: State, id: ActionId, r: RandomDraw): (t: State)
    // only the player's funds, approval and influence change
    ensures t == s.(funds := t.funds, approvalHalves := t.approvalHalves, influence := t.influence)
    // an affordable effect leaves the funds non-negative, and influence never falls
    ensures s.funds >= Cost(id) ==> t.funds >= 0
    ensures t.influence >= s.influence
    ensures t.funds - s.funds == (if id == Fundraising then FundraisingGain(r) else 0) - Cost(id)
  {
    var d := EffectDelta(id, r);
    s.(funds := s.funds + d.funds,
       approvalHalves := s.approvalHalves + d.approvalHalves,
       influence := s.influence + d.influence)
  }

  /** performAction (game.js:113-132): `effectDraw` feeds the effect,
      `swingDraw` the month that follows. */
  function AfterAction(s: State, id: ActionId, effectDraw: RandomDraw, swingDraw: RandomDraw): (t: State)
    // a finished game only answers with a message
    ensures s.gameOver ==> t == s.(log := Prepended(s.log, Entry(s.turn, GameAlreadyOver)))
    // an unaffordable action only reports the shortfall
    ensures !s.gameOver && s.funds < Cost(id) ==>
              t == s.(log := Prepended(s.log, Entry(s.turn, ShortOfFunds(Cost(id)))))
    // an affordable one applies its effect and then always consumes a month
    ensures !s.gameOver && s.funds >= Cost(id) ==>
              t.turn == s.turn + 1 &&
              t.funds == s.funds + EffectDelta(id, effectDraw).funds - 20 &&
              t.influence == s.influence + EffectDelta(id, effectDraw).influence
    // the effect's approval change lands before the decay and the swing
    ensures !s.gameOver && s.funds >= Cost(id) ==>
              t.approvalHalves ==
                Max(0, s.approvalHalves + EffectDelta(id, effectDraw).approvalHalves - 1) +
                (if t.turn % 12 == 0 then Halves(EconomicSwing(swingDraw)) else 0)
    // and the month ends the game exactly as nextTurn decides on the state after the effect
    ensures !s.gameOver && s.funds >= Cost(id) ==>
              (t.gameOver <==>
                 s.funds + EffectDelta(id, effectDraw).funds < 20 ||
                 Max(0, s.approvalHalves + EffectDelta(id, effectDraw).approvalHalves - 1) < LowApproval ||
                 t.turn >= TermMonths)
  {
    if s.gameOver then Logged(s, GameAlreadyOver)
    else if s.funds < Cost(id) then Logged(s, ShortOfFunds(Cost(id)))
    else AfterNextTurn(Logged(AfterEffect(s, id, effectDraw), Report(id, effectDraw)), swingDraw)
  }

  /** nextTurn of a running game as its four stages: upkeep and promotion,
      the new month's check, the news, and the verdict. */
  lemma NextTurnStages(s: State, r: RandomDraw, promoted: State, checked: State, swung: State)
    requires !s.gameOver
    requires promoted == AfterPromotion(AfterUpkeep(s))
    requires checked == AfterGameOverCheck(promoted.(turn := promoted.turn + 1))
    requires swung == AfterSwing(checked, r)
    ensures AfterNextTurn(s, r) == if swung.turn >= TermMonths then AfterWinCheck(swung) else swung
  {
  }

  /** A month keeps every state property. */
  lemma NextTurnKeepsWellFormed(s: State, r: RandomDraw)
    requires WellFormed(s)
    ensures WellFormed(AfterNextTurn(s, r))
  {
  }

  /** Every call of performAction keeps every state property. */
  lemma ActionKeepsWellFormed(s: State, id: ActionId, effectDraw: RandomDraw, swingDraw: RandomDraw)
    requires WellFormed(s)
    ensures WellFormed(AfterAction(s, id, effectDraw, swingDraw))
  {
  }
}

/** The game session as game.js runs it: one object whose fields the
    routines update in place. Each method is proved to leave the session in
    the state the matching function of Rules describes. */
module Session {
  import opened Draws
  import opened Catalog
  import opened Messages
  import opened Rules

  class Game {
    var name: string
    var turn: int
    var gameOver: bool
    var funds: int
    var approvalHalves: int
    var influence: int
    var position: Position
    var rank: Rank
    var log: seq<Entry>

    /** The session as a value. */
    function Snapshot(): State
      reads this
    {
      State(name, turn, gameOver, funds, approvalHalves, influence, position, rank, log)
    }

    predicate Valid()
      reads this
    {
      WellFormed(Snapshot())
    }

    /** The initial objects (game.js:5-17) and initializeGame (game.js:104-110). */
    constructor (reply: PromptReply)
      ensures Snapshot() == InitialState(reply)
      ensures Valid()
    {
      name := PlayerName(reply);
      turn := 1;
      gameOver := false;
      funds := 500;
      approvalHalves := Halves(40);
      influence := 10;
      position := Representative;
      rank := Backbencher;
      log := [];
      new;
      DisplayMessage(Welcome(name));
      GameOverCheck();
    }

    /** displayMessage (game.js:85-97): put the entry in front, then remove
        the last one while more than MaxMessages remain. */
    method DisplayMessage(message: Message)
      modifies this
      ensures Snapshot() == Logged(old(Snapshot()), message)
    {
      var full := [Entry(turn, message)] + log;
      log := full;
      while |log| > MaxMessages
        invariant |log| <= |full| && log == full[..|log|]
        invariant |full| > MaxMessages ==> |log| >= MaxMessages
        invariant |full| <= MaxMessages ==> log == full
        invariant Snapshot() == old(Snapshot()).(log := log)
        decreases |log|
      {
        log := log[..|log| - 1];
      }
    }

    /** The state part of endGame (game.js:186-190). */
    method EndGame(reason: EndReason, isWin: bool)
      modifies this
      ensures Snapshot() == AfterEndGame(old(Snapshot()), reason, isWin)
    {
      gameOver := true;
      DisplayMessage(EndBanner(isWin));
      DisplayMessage(Ending(reason));
    }

    /** The game-over checks of updateUI (game.js:76-82). */
    method GameOverCheck()
      modifies this
      ensures Snapshot() == AfterGameOverCheck(old(Snapshot()))
    {
      if funds < 0 {
        EndGame(Bankrupt, false);
      }
      if approvalHalves < LowApproval {
        EndGame(LostSupport, false);
      }
    }

    /** checkPromotion (game.js:163-174). */
    method CheckPromotion()
      modifies this
      ensures Snapshot() == AfterPromotion(old(Snapshot()))
    {
      if position == Representative {
        if influence >= 50 && approvalHalves >= Halves(50) && rank == Backbencher {
          rank := ViceMinisterTier;
          DisplayMessage(PromotedToViceMinister);
        } else if influence >= 100 && approvalHalves >= Halves(60) && rank == ViceMinisterTier {
          rank := MinisterTier;
          position := DeputyChiefCabinetSecretary;
          DisplayMessage(AppointedDeputyChiefCabinetSecretary);
        }
      }
    }

    /** checkWinCondition (game.js:177-183). */
    method CheckWinCondition()
      modifies this
      ensures Snapshot() == AfterWinCheck(old(Snapshot()))
    {
      if position == DeputyChiefCabinetSecretary && influence >= 150 && funds >= 5000 {
        EndGame(BecamePrimeMinister, true);
      } else {
        EndGame(TermEnded, false);
      }
    }

    /** nextTurn (game.js:135-160); `swingDraw` is the Math.random of line 153. */
    method NextTurn(swingDraw: RandomDraw)
      modifies this
      ensures Snapshot() == AfterNextTurn(old(Snapshot()), swingDraw)
      ensures old(Valid()) ==> Valid()
    {
      if gameOver {
        return;
      }
      ghost var before := Snapshot();
      funds := funds - 20;
      approvalHalves := Max(0, approvalHalves - 1);
      assert Snapshot() == AfterUpkeep(before);
      CheckPromotion();
      ghost var promoted := Snapshot();
      assert promoted == AfterPromotion(AfterUpkeep(before));
      turn := turn + 1;
      assert Snapshot() == promoted.(turn := promoted.turn + 1);
      GameOverCheck();
      ghost var checked := Snapshot();
      assert checked == AfterGameOverCheck(promoted.(turn := promoted.turn + 1));
      if turn % 12 == 0 {
        DisplayMessage(EconomicNews);
        approvalHalves := approvalHalves + Halves(EconomicSwing(swingDraw));
      }
      ghost var swung := Snapshot();
      assert swung == AfterSwing(checked, swingDraw);
      if turn >= TermMonths {
        CheckWinCondition();
      }
      assert Snapshot() == if swung.turn >= TermMonths then AfterWinCheck(swung) else swung;
      NextTurnStages(before, swingDraw, promoted, checked, swung);
      if WellFormed(before) {
        NextTurnKeepsWellFormed(before, swingDraw);
      }
    }

    /** The effect closures of the action table (game.js:24-58), in the
        order each updates the fields; returns the message it reports. */
    method ApplyEffect(id: ActionId, draw: RandomDraw) returns (report: Message)
      modifies this
      ensures Snapshot() == AfterEffect(old(Snapshot()), id, draw)
      ensures report == Report(id, draw)
      ensures id == Campaign ==>
                approvalHalves == old(approvalHalves) + Halves(3) && funds == old(funds) - 50 &&
                influence == old(influence)
      ensures id == Fundraising ==>
                funds == old(funds) + FundraisingGain(draw) - 10 && influence == old(influence) + 1 &&
                approvalHalves == old(approvalHalves)
      ensures id == Policy ==>
                approvalHalves == old(approvalHalves) + Halves(1) && funds == old(funds) - 30 &&
                influence == old(influence)
      ensures id == FactionMeeting ==>
                influence == old(influence) + InfluenceGain(draw) &&
                approvalHalves == old(approvalHalves) - Halves(1) && funds == old(funds)
    {
      match id
      case Campaign =>
        approvalHalves := approvalHalves + Halves(3);
        funds := funds - 50;
        report := Campaigned;
      case Fundraising =>
        var gain := FundraisingGain(draw);
        funds := funds + gain;
        influence := influence + 1;
        funds := funds - 10;
        report := RaisedFunds(gain);
      case Policy =>
        approvalHalves := approvalHalves + Halves(1);
        funds := funds - 30;
        report := StudiedPolicy;
      case FactionMeeting =>
        var influenceGain := InfluenceGain(draw);
        influence := influence + influenceGain;
        approvalHalves := approvalHalves - Halves(1);
        report := MetFaction(influenceGain);
    }

    /** performAction (game.js:113-132). */
    method PerformAction(id: ActionId, effectDraw: RandomDraw, swingDraw: RandomDraw)
      modifies this
      ensures Snapshot() == AfterAction(old(Snapshot()), id, effectDraw, swingDraw)
      ensures old(Valid()) ==> Valid()
    {
      ghost var before := Snapshot();
      if gameOver {
        DisplayMessage(GameAlreadyOver);
        return;
      }
      if funds < Cost(id) {
        DisplayMessage(ShortOfFunds(Cost(id)));
        return;
      }
      var report := ApplyEffect(id, effectDraw);
      DisplayMessage(report);
      NextTurn(swingDraw);
      if WellFormed(before) {
        ActionKeepsWellFormed(before, id, effectDraw, swingDraw);
      }
    }
  }
}

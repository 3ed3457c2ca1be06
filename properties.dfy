/** Properties of whole games: what holds after any sequence of performAction
    calls, and witnesses of the order in which nextTurn does its work. */
module Properties {
  import opened Draws
  import opened Catalog
  import opened Messages
  import opened Rules

  /** One click of an action button, with the two Math.random values it consumes. */
  datatype Move = Move(id: ActionId, effectDraw: RandomDraw, swingDraw: RandomDraw)

  /** The state after performing `moves` in order. */
  function Play(s: State, moves: seq<Move>): State
    decreases |moves|
  {
    if moves == [] then s
    else Play(AfterAction(s, moves[0].id, moves[0].effectDraw, moves[0].swingDraw), moves[1..])
  }

  /** Whether performAction accepts the move in state `s` (and so consumes a month). */
  predicate Accepts(s: State, m: Move)
  {
    !s.gameOver && s.funds >= Cost(m.id)
  }

  /** How many of `moves` are accepted. */
  function AcceptedCount(s: State, moves: seq<Move>): nat
    decreases |moves|
  {
    if moves == [] then 0
    else
      (if Accepts(s, moves[0]) then 1 else 0) +
      AcceptedCount(AfterAction(s, moves[0].id, moves[0].effectDraw, moves[0].swingDraw), moves[1..])
  }

  /** `t` is no earlier than `s`: a finished game stays finished, and the
      month, the influence and the rank never go back. */
  predicate Progressed(s: State, t: State)
  {
    && (s.gameOver ==> t.gameOver)
    && s.turn <= t.turn
    && s.influence <= t.influence
    && Level(s.rank) <= Level(t.rank)
  }

  /** No sequence of actions breaks the state properties. */
  lemma {:induction false} PlayKeepsWellFormed(s: State, moves: seq<Move>)
    requires WellFormed(s)
    ensures WellFormed(Play(s, moves))
    decreases |moves|
  {
    if moves != [] {
      var m := moves[0];
      ActionKeepsWellFormed(s, m.id, m.effectDraw, m.swingDraw);
      PlayKeepsWellFormed(AfterAction(s, m.id, m.effectDraw, m.swingDraw), moves[1..]);
    }
  }

  /** Any sequence of actions only moves the game forward. */
  lemma {:induction false} PlayProgresses(s: State, moves: seq<Move>)
    ensures Progressed(s, Play(s, moves))
    decreases |moves|
  {
    if moves != [] {
      var m := moves[0];
      var next := AfterAction(s, m.id, m.effectDraw, m.swingDraw);
      assert Progressed(s, next);
      PlayProgresses(next, moves[1..]);
    }
  }

  /** Once the game is over, actions change nothing but the messages. */
  lemma {:induction false} PlayAfterGameOver(s: State, moves: seq<Move>)
    requires s.gameOver
    ensures Play(s, moves) == s.(log := Play(s, moves).log)
    decreases |moves|
  {
    if moves != [] {
      var m := moves[0];
      PlayAfterGameOver(AfterAction(s, m.id, m.effectDraw, m.swingDraw), moves[1..]);
    }
  }

  /** Every accepted action consumes exactly one month, and no other does. */
  lemma {:induction false} MonthsAreAcceptedActions(s: State, moves: seq<Move>)
    ensures Play(s, moves).turn == s.turn + AcceptedCount(s, moves)
    decreases |moves|
  {
    if moves != [] {
      var m := moves[0];
      MonthsAreAcceptedActions(AfterAction(s, m.id, m.effectDraw, m.swingDraw), moves[1..]);
    }
  }

  /** A game accepts at most 47 actions, whatever is played: the 47th
      accepted action reaches month 48 and ends the term. */
  lemma AcceptedWithinTerm(reply: PromptReply, moves: seq<Move>)
    ensures AcceptedCount(InitialState(reply), moves) <= TermMonths - 1
    ensures AcceptedCount(InitialState(reply), moves) == TermMonths - 1 ==>
              Play(InitialState(reply), moves).gameOver
  {
    PlayKeepsWellFormed(InitialState(reply), moves);
    MonthsAreAcceptedActions(InitialState(reply), moves);
  }

  /** The economic swing comes after updateUI's checks, so a month can end
      with the game still running and approval below 10%. */
  lemma SwingAfterCheck()
    ensures exists s: State, r: RandomDraw ::
              WellFormed(s) && !s.gameOver &&
              !AfterNextTurn(s, r).gameOver && AfterNextTurn(s, r).approvalHalves < LowApproval
  {
    var s := State(DefaultName, 11, false, 100, Halves(11), 10, Representative, Backbencher, []);
    var r: RandomDraw := 0.0;
    assert EconomicSwing(r) == -5;
    assert !AfterNextTurn(s, r).gameOver && AfterNextTurn(s, r).approvalHalves < LowApproval;
  }

  /** The verdict comes after updateUI's checks, so the last month can end
      the game for loss of support and then still announce the win. */
  lemma LostSupportThenWon()
    ensures exists s: State, r: RandomDraw ::
              WellFormed(s) && !s.gameOver &&
              |AfterNextTurn(s, r).log| >= 4 &&
              AfterNextTurn(s, r).log[3].message == Ending(LostSupport) &&
              AfterNextTurn(s, r).log[0].message == Ending(BecamePrimeMinister)
  {
    var s := State(DefaultName, 47, false, 6000, Halves(10), 200,
                   DeputyChiefCabinetSecretary, MinisterTier, []);
    var r: RandomDraw := 0.5;
    var t := AfterNextTurn(s, r);
    assert t.log[3].message == Ending(LostSupport) && t.log[0].message == Ending(BecamePrimeMinister);
  }

  /** An affordable campaign in a quiet month: +3 points of approval, less
      half a point of decay, and 50 plus 20 man-yen spent. */
  lemma CampaignMonth(s: State, m: Move)
    requires !s.gameOver && m.id == Campaign && s.funds >= 70 && s.approvalHalves >= LowApproval
    requires (s.turn + 1) % 12 != 0 && s.turn + 1 < TermMonths
    ensures var t := AfterAction(s, m.id, m.effectDraw, m.swingDraw);
            !t.gameOver && t.turn == s.turn + 1 && t.funds == s.funds - 70 &&
            t.approvalHalves == s.approvalHalves + Halves(3) - 1 && t.influence == s.influence
  {
  }

  /** Five campaigns from the start: each costs 50 and is followed by a
      month of upkeep, so 350 of the 500 man-yen are spent. */
  lemma FiveCampaigns(reply: PromptReply, m: Move)
    requires m.id == Campaign
    ensures var t := Play(InitialState(reply), [m, m, m, m, m]);
            !t.gameOver && t.turn == 6 && t.funds == 150 && t.approvalHalves == Halves(40) + 5 * (Halves(3) - 1)
  {
    var s0 := InitialState(reply);
    CampaignMonth(s0, m);
    var s1 := AfterAction(s0, m.id, m.effectDraw, m.swingDraw);
    CampaignMonth(s1, m);
    var s2 := AfterAction(s1, m.id, m.effectDraw, m.swingDraw);
    CampaignMonth(s2, m);
    var s3 := AfterAction(s2, m.id, m.effectDraw, m.swingDraw);
    CampaignMonth(s3, m);
    var s4 := AfterAction(s3, m.id, m.effectDraw, m.swingDraw);
    CampaignMonth(s4, m);
    var s5 := AfterAction(s4, m.id, m.effectDraw, m.swingDraw);
    assert [m, m, m, m, m][1..] == [m, m, m, m];
    assert [m, m, m, m][1..] == [m, m, m];
    assert [m, m, m][1..] == [m, m];
    assert [m, m][1..] == [m];
    assert Play(s0, [m, m, m, m, m]) == Play(s1, [m, m, m, m]);
    assert Play(s1, [m, m, m, m]) == Play(s2, [m, m, m]);
    assert Play(s2, [m, m, m]) == Play(s3, [m, m]);
    assert Play(s3, [m, m]) == Play(s4, [m]);
    assert Play(s4, [m]) == s5;
  }
}

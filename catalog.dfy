/** The action catalog (game.js:20-60): four actions, each with a cost in
    man-yen and an effect on the player's funds, approval and influence. */
module Catalog {
  import opened Draws

  /** The keys of the `actions` table. An unknown key cannot be expressed. */
  datatype ActionId = Campaign | Fundraising | Policy | FactionMeeting

  /** Approval is kept in half percentage points, the smallest step the game
      ever takes; Halves(p) is p percentage points. */
  function Halves(points: int): int
  {
    2 * points
  }

  /** The `cost` entry of each action: what the funds check compares against. */
  function Cost(id: ActionId): (cost: nat)
    // only the faction meeting is free, and the campaign is the dearest action
    ensures cost == 0 <==> id == FactionMeeting
    ensures cost <= 50 && (cost == 50 <==> id == Campaign)
  {
    match id
    case Campaign => 50
    case Fundraising => 10
    case Policy => 30
    case FactionMeeting => 0
  }

  /** What an effect closure adds to the player's attributes. */
  datatype Delta = Delta(funds: int, approvalHalves: int, influence: int)

  /** The change made by the effect of action `id`; `r` is the draw that
      fundraising and faction meetings consume (the others ignore it). */
  function EffectDelta(id: ActionId, r: RandomDraw): (d: Delta)
    // every effect pays exactly its catalog cost; only fundraising brings money in
    ensures d.funds == (if id == Fundraising then FundraisingGain(r) else 0) - Cost(id)
    // influence never falls; only fundraising and faction meetings raise it
    ensures d.influence >= 0 && (d.influence > 0 <==> id in {Fundraising, FactionMeeting})
    // only the faction meeting costs approval, and at most one point
    ensures Halves(-1) <= d.approvalHalves <= Halves(3)
    ensures d.approvalHalves < 0 <==> id == FactionMeeting
  {
    match id
    case Campaign => Delta(-50, Halves(3), 0)
    case Fundraising => Delta(FundraisingGain(r) - 10, 0, 1)
    case Policy => Delta(-30, Halves(1), 0)
    case FactionMeeting => Delta(0, Halves(-1), InfluenceGain(r))
  }

  /** An action the player can afford never leaves the funds negative. */
  lemma AffordableEffectKeepsFunds(id: ActionId, r: RandomDraw, funds: int)
    requires funds >= Cost(id)
    ensures funds + EffectDelta(id, r).funds >= 0
  {
  }
}

/** Random draws. Every call to Math.random in the game becomes a parameter of
    type RandomDraw, and the integer amounts the game derives from a draw are
    computed from it by the game's formulas, with the product taken as an
    exact real rather than a rounded double. */
module Draws {

  /** One value of Math.random: a real number in [0, 1). */
  type RandomDraw = r: real | 0.0 <= r < 1.0

  /** Money raised by a fundraising party, floor(r * 200) + 100 (game.js:34). */
  function FundraisingGain(r: RandomDraw): (gain: int)
    ensures 100 <= gain <= 299
  {
    (r * 200.0).Floor + 100
  }

  /** Influence won at a faction meeting, floor(r * 5) + 1 (game.js:54). */
  function InfluenceGain(r: RandomDraw): (gain: int)
    ensures 1 <= gain <= 5
  {
    (r * 5.0).Floor + 1
  }

  /** Approval swing of the twelve-month economic news, floor(r * 10) - 5
      percentage points (game.js:153). */
  function EconomicSwing(r: RandomDraw): (delta: int)
    ensures -5 <= delta <= 4
  {
    (r * 10.0).Floor - 5
  }

  /** A fundraising party can bring in exactly the amounts 100..299. */
  lemma FundraisingGainRange(gain: int)
    ensures (exists r: RandomDraw :: FundraisingGain(r) == gain) <==> 100 <= gain <= 299
  {
    if 100 <= gain <= 299 {
      var r: RandomDraw := (gain - 100) as real / 200.0;
      assert FundraisingGain(r) == gain;
    }
  }

  /** A faction meeting can yield exactly the influence gains 1..5. */
  lemma InfluenceGainRange(gain: int)
    ensures (exists r: RandomDraw :: InfluenceGain(r) == gain) <==> 1 <= gain <= 5
  {
    if 1 <= gain <= 5 {
      var r: RandomDraw := (gain - 1) as real / 5.0;
      assert InfluenceGain(r) == gain;
    }
  }

  /** The economic swing takes exactly the values -5..4: it is not centred on zero. */
  lemma EconomicSwingRange(delta: int)
    ensures (exists r: RandomDraw :: EconomicSwing(r) == delta) <==> -5 <= delta <= 4
  {
    if -5 <= delta <= 4 {
      var r: RandomDraw := (delta + 5) as real / 10.0;
      assert EconomicSwing(r) == delta;
    }
  }
}

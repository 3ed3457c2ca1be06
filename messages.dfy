/** The message area (game.js:85-97). Each call of displayMessage puts a new
    entry, stamped with the current month, at the front; the oldest entries
    are dropped so that at most MaxMessages remain. The wording of the
    messages is abstracted into the Message datatype. */
module Messages {
  /** How many messages the area keeps (game.js:94). */
  const MaxMessages := 20

  /** Why endGame was called. */
  datatype EndReason =
    | Bankrupt             // funds below zero (game.js:78)
    | LostSupport          // approval below 10% (game.js:81)
    | BecamePrimeMinister  // the winning verdict (game.js:179)
    | TermEnded            // the losing verdict (game.js:181)

  /** One constructor per distinct message the game displays; the four
      action reports all go through the one call at game.js:128. */
  datatype Message =
    | Welcome(name: string)                   // game.js:108
    | GameAlreadyOver                         // game.js:115
    | ShortOfFunds(cost: int)                 // game.js:122
    | Campaigned                              // game.js:27, 128
    | RaisedFunds(gain: int)                  // game.js:38, 128
    | StudiedPolicy                           // game.js:47, 128
    | MetFaction(influenceGain: int)          // game.js:57, 128
    | EconomicNews                            // game.js:152
    | PromotedToViceMinister                  // game.js:167
    | AppointedDeputyChiefCabinetSecretary    // game.js:171
    | EndBanner(isWin: bool)                  // game.js:189
    | Ending(reason: EndReason)               // game.js:190

  /** A displayed message with the month it was displayed in. */
  datatype Entry = Entry(month: int, message: Message)

  /** The log after displaying `e`: newest first, capped at MaxMessages. */
  function Prepended(log: seq<Entry>, e: Entry): (r: seq<Entry>)
    ensures |r| == if |log| < MaxMessages then |log| + 1 else MaxMessages
    ensures r[0] == e
    ensures forall i :: 0 < i < |r| ==> r[i] == log[i - 1]
  {
    var full := [e] + log;
    if |full| <= MaxMessages then full else full[..MaxMessages]
  }

  /** Displaying a message on a full area drops exactly the oldest entry. */
  lemma PrependedOnFull(log: seq<Entry>, e: Entry)
    requires |log| == MaxMessages
    ensures Prepended(log, e) == [e] + log[..MaxMessages - 1]
  {
  }
}

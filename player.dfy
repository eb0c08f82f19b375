/** A player's tallies. The Player class itself is not part of this model:
    what its constructor and its methods do is an assumption stated in the
    contracts below, not a verified fact. */
module Players {

  class Player {
    /** Set by the unseen no-argument constructor. */
    const playerNumber: int
    var score: int
    var rollsUsed: int
    var wins: int
    var losses: int

    /** Assumed: a new player has no score, no rolls and no results yet. */
    constructor ()
      ensures score == 0 && rollsUsed == 0 && wins == 0 && losses == 0
    {
      var n: int :| true;
      playerNumber := n;
      score, rollsUsed, wins, losses := 0, 0, 0, 0;
    }

    /** Assumed: a roll only counts one more roll used this turn. */
    method Roll()
      modifies this
      ensures rollsUsed == old(rollsUsed) + 1
      ensures score == old(score) && wins == old(wins) && losses == old(losses)
    {
      rollsUsed := rollsUsed + 1;
    }

    /** Assumed: a reset clears the turn state and keeps the win/loss tallies. */
    method ResetPlayer()
      modifies this
      ensures score == 0 && rollsUsed == 0
      ensures wins == old(wins) && losses == old(losses)
    {
      score, rollsUsed := 0, 0;
    }
  }
}

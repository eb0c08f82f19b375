/** A single die of the game. The Die class itself is not part of this model:
    what its constructor and its methods do is an assumption stated in the
    contracts below, not a verified fact. */
module Dice {

  class Die {
    /** The label a player types to hold this die (set by the unseen constructor). */
    const dieNum: char
    /** Number of faces; the engine always asks for 6. */
    const sides: int
    var faceValue: int
    var held: bool

    /** A die always shows one of its faces. */
    ghost predicate Valid()
      reads this
    {
      1 <= sides && 1 <= faceValue <= sides
    }

    /** Assumed: a new die is free, shows some face, and gets some label. */
    constructor (sides: int)
      requires 1 <= sides
      ensures Valid() && this.sides == sides && !held
    {
      var tag: char :| true;
      var face :| 1 <= face <= sides;
      dieNum := tag;
      this.sides := sides;
      faceValue := face;
      held := false;
    }

    /** Assumed: holding a die only sets its held flag. */
    method HoldDie()
      modifies this
      ensures held && faceValue == old(faceValue)
    {
      held := true;
    }

    /** Assumed: a free die lands on some face in 1..sides (the random source is
        left out, so the face is nondeterministic); a held die keeps its face. */
    method RollDie()
      requires Valid()
      modifies this
      ensures Valid() && held == old(held)
      ensures old(held) ==> faceValue == old(faceValue)
    {
      if !held {
        var face :| 1 <= face <= sides;
        faceValue := face;
      }
    }

    /** Assumed: resetting frees the die and leaves it showing some face in 1..sides. */
    method ResetDie()
      requires Valid()
      modifies this
      ensures Valid() && !held
    {
      var face :| 1 <= face <= sides;
      held := false;
      faceValue := face;
    }
  }
}

/** The game-state engine: a roster of players, a set of six-sided dice, a cap
    on rolls per turn and a pointer to the player whose turn it is. */
module Game {
  import opened Dice
  import opened Players

  /** Why construction refused its arguments (both are IllegalArgumentException). */
  datatype ConfigError =
    | NegativeCount   // the roster list cannot have a negative length
    | TooFewPlayers   // fewer than two players

  datatype Result<T> = Success(value: T) | Failure(error: ConfigError)

  /** Position of the first slot holding exactly the object `x`, or -1 when no
      slot does (list lookup by identity, as for objects without equals). */
  function IndexOf(s: seq<Player>, x: Player?): (r: int)
    ensures -1 <= r < |s|
    ensures r == -1 <==> x !in s
    ensures 0 <= r ==> s[r] == x && forall j :: 0 <= j < r ==> s[j] != x
  {
    if |s| == 0 then -1
    else if s[0] == x then 0
    else
      var k := IndexOf(s[1..], x);
      if k == -1 then -1 else k + 1
  }

  /** Whether every die of `ds` is held, die by die. */
  function AllHeld(ds: seq<Die>): (r: bool)
    reads ds
    ensures r <==> forall i :: 0 <= i < |ds| ==> ds[i].held
  {
    |ds| == 0 || (ds[0].held && AllHeld(ds[1..]))
  }

  /** The dice of `ds` that are held and show `face`, in list order. */
  function HeldWithFace(ds: seq<Die>, face: int): (r: seq<Die>)
    reads ds
    ensures forall d :: d in r ==> d in ds && d.faceValue == face && d.held
    ensures forall i :: 0 <= i < |ds| && ds[i].faceValue == face && ds[i].held ==> ds[i] in r
  {
    if |ds| == 0 then []
    else
      var rest := HeldWithFace(ds[1..], face);
      if ds[0].faceValue == face && ds[0].held then [ds[0]] + rest else rest
  }

  /** Position of the first die labelled `c`, or |ds| when there is none. */
  function FirstWithLabel(ds: seq<Die>, c: char): (k: int)
    ensures 0 <= k <= |ds|
    ensures k < |ds| ==> ds[k].dieNum == c
    ensures forall j :: 0 <= j < k ==> ds[j].dieNum != c
  {
    if |ds| == 0 then 0
    else if ds[0].dieNum == c then 0
    else FirstWithLabel(ds[1..], c) + 1
  }

  /** In a roster whose slots all hold one object, looking up any member finds
      slot 0, so the slot after it always exists once there are two slots. */
  lemma SharedRosterIndex(s: seq<Player>, x: Player)
    requires 2 <= |s| && forall i :: 0 <= i < |s| ==> s[i] == s[0]
    requires x in s
    ensures IndexOf(s, x) == 0 && IndexOf(s, x) + 1 < |s| && s[IndexOf(s, x) + 1] == x
  {
  }

  class DiceGame {
    const players: seq<Player>
    const dice: seq<Die>
    const maxRolls: int
    /** null until a game is started (or the first NextPlayer call). */
    var currentPlayer: Player?

    /** The engine's invariant. The roster is built by repeating ONE player
        object, so every slot refers to the same player; each die is its own
        object and a six-sided die. */
    ghost predicate Valid()
      reads this, dice
    {
      && 2 <= |players|
      && (forall i :: 0 <= i < |players| ==> players[i] == players[0])
      && (currentPlayer != null ==> currentPlayer in players)
      && (forall i, j :: 0 <= i < j < |dice| ==> dice[i] != dice[j])
      && (forall i :: 0 <= i < |dice| ==> dice[i].sides == 6 && dice[i].Valid())
    }

    /** Builds the roster from one shared player, then appends countDice fresh
        six-sided dice (none when countDice is negative). */
    constructor (countPlayers: int, countDice: int, maxRolls: int)
      requires 2 <= countPlayers
      ensures Valid() && currentPlayer == null
      ensures |players| == countPlayers && fresh(players[0])
      ensures players[0].score == 0 && players[0].rollsUsed == 0
      ensures players[0].wins == 0 && players[0].losses == 0
      ensures |dice| == if countDice < 0 then 0 else countDice
      ensures forall i :: 0 <= i < |dice| ==> fresh(dice[i]) && !dice[i].held
      ensures this.maxRolls == maxRolls
    {
      var shared := new Player();
      var ds: seq<Die> := [];
      var i := 0;
      while i < countDice
        invariant 0 <= i && (i <= countDice || i == 0)
        invariant |ds| == i
        invariant forall k :: 0 <= k < |ds| ==> fresh(ds[k]) && !ds[k].held
        invariant forall k :: 0 <= k < |ds| ==> ds[k].sides == 6 && ds[k].Valid()
        invariant forall j, k :: 0 <= j < k < |ds| ==> ds[j] != ds[k]
        invariant shared.score == 0 && shared.rollsUsed == 0 && shared.wins == 0 && shared.losses == 0
      {
        var d := new Die(6);
        ds := ds + [d];
        i := i + 1;
      }
      players := seq(countPlayers, _ => shared);
      dice := ds;
      this.maxRolls := maxRolls;
      currentPlayer := null;
    }

    /** Whether every die is held; vacuously true with no dice. */
    predicate AllDiceHeld()
      reads dice
      ensures AllDiceHeld() <==> forall i :: 0 <= i < |dice| ==> dice[i].held
      ensures |dice| == 0 ==> AllDiceHeld()
    {
      AllHeld(dice)
    }

    /** The roll gate: the cap on rolls is lifted while any die is still free. */
    predicate CurrentPlayerCanRoll()
      requires currentPlayer != null
      reads this, currentPlayer, dice
      ensures (exists i :: 0 <= i < |dice| && !dice[i].held) ==> CurrentPlayerCanRoll()
      ensures !CurrentPlayerCanRoll() <==>
        currentPlayer.rollsUsed >= maxRolls && forall i :: 0 <= i < |dice| ==> dice[i].held
      ensures |dice| == 0 ==> (CurrentPlayerCanRoll() <==> currentPlayer.rollsUsed < maxRolls)
    {
      currentPlayer.rollsUsed < maxRolls || !AllDiceHeld()
    }

    /** The current player's number; because the roster is one shared player,
        every slot reports this same number. */
    function GetCurrentPlayerNumber(): (n: int)
      requires Valid() && currentPlayer != null
      reads this, dice
      ensures forall i :: 0 <= i < |players| ==> players[i].playerNumber == n
    {
      currentPlayer.playerNumber
    }

    /** The current player's score, which every slot of the shared roster shares. */
    function GetCurrentPlayerScore(): (s: int)
      requires Valid() && currentPlayer != null
      reads this, currentPlayer, dice
      ensures forall i :: 0 <= i < |players| ==> players[i].score == s
    {
      currentPlayer.score
    }

    /** Whether some die shows `face` and is held. */
    function IsHoldingDie(face: int): (r: bool)
      reads dice
      ensures r <==> exists i :: 0 <= i < |dice| && dice[i].faceValue == face && dice[i].held
    {
      var held := HeldWithFace(dice, face);
      assert |held| > 0 ==> held[0] in held;
      |held| > 0
    }

    /** Moves to the slot after the current player's (first) slot. With the
        shared roster that slot index is 0, or -1 before any game, so the step
        always lands on a slot of the roster, i.e. on the shared player, and
        the "no players left" branch is never taken. */
    method NextPlayer() returns (advanced: bool)
      requires Valid()
      modifies this
      ensures Valid() && advanced
      ensures currentPlayer == old(players[IndexOf(players, currentPlayer) + 1])
      ensures currentPlayer == players[0]
    {
      var index := IndexOf(players, currentPlayer);
      var playersLeft := |players| - index;
      if playersLeft > 0 {
        currentPlayer := players[index + 1];
        advanced := true;
      } else {
        assert false;
        advanced := false;
      }
    }

    /** Holds the first die, in list order, whose label is `c`; nothing else
        changes, and nothing at all when no die has that label. */
    method PlayerHold(c: char)
      requires Valid()
      modifies dice
      ensures Valid()
      ensures forall i :: 0 <= i < |dice| ==> dice[i].faceValue == old(dice[i].faceValue)
      ensures forall i :: 0 <= i < |dice| ==>
        dice[i].held == (old(dice[i].held) || (dice[i].dieNum == c && forall j :: 0 <= j < i ==> dice[j].dieNum != c))
    {
      var k := FirstWithLabel(dice, c);
      if k < |dice| {
        dice[k].HoldDie();
      }
    }

    /** Frees every die. */
    method ResetDice()
      requires Valid()
      modifies dice
      ensures Valid()
      ensures forall i :: 0 <= i < |dice| ==> !dice[i].held
    {
      for i := 0 to |dice|
        invariant Valid()
        invariant forall k :: 0 <= k < i ==> !dice[k].held
      {
        dice[i].ResetDie();
      }
    }

    /** Clears every player's turn state; win and loss tallies are kept. */
    method ResetPlayers()
      requires Valid()
      modifies players
      ensures Valid()
      ensures forall i :: 0 <= i < |players| ==> players[i].score == 0 && players[i].rollsUsed == 0
      ensures forall i :: 0 <= i < |players| ==>
        players[i].wins == old(players[i].wins) && players[i].losses == old(players[i].losses)
    {
      for i := 0 to |players|
        invariant forall k :: 0 <= k < i ==> players[k].score == 0 && players[k].rollsUsed == 0
        invariant forall k :: 0 <= k < |players| ==>
          players[k].wins == old(players[k].wins) && players[k].losses == old(players[k].losses)
      {
        players[i].ResetPlayer();
      }
    }

    /** Counts one roll for the current player, then rolls every die; held
        dice keep their faces. */
    method RollDice()
      requires Valid() && currentPlayer != null
      modifies currentPlayer, dice
      ensures Valid() && currentPlayer == old(currentPlayer)
      ensures forall i :: 0 <= i < |players| ==> players[i].rollsUsed == old(players[i].rollsUsed) + 1
      ensures forall i :: 0 <= i < |players| ==> players[i].score == old(players[i].score)
      ensures forall i :: 0 <= i < |players| ==>
        players[i].wins == old(players[i].wins) && players[i].losses == old(players[i].losses)
      ensures forall i :: 0 <= i < |dice| ==> dice[i].held == old(dice[i].held)
      ensures forall i :: 0 <= i < |dice| ==> old(dice[i].held) ==> dice[i].faceValue == old(dice[i].faceValue)
    {
      currentPlayer.Roll();
      for i := 0 to |dice|
        invariant Valid()
        invariant currentPlayer.rollsUsed == old(currentPlayer.rollsUsed) + 1
        invariant currentPlayer.score == old(currentPlayer.score)
        invariant currentPlayer.wins == old(currentPlayer.wins) && currentPlayer.losses == old(currentPlayer.losses)
        invariant forall k :: 0 <= k < |dice| ==> dice[k].held == old(dice[k].held)
        invariant forall k :: 0 <= k < |dice| ==> old(dice[k].held) ==> dice[k].faceValue == old(dice[k].faceValue)
      {
        dice[i].RollDie();
      }
    }

    /** Makes the first slot's player current and clears every player's turn
        state; the dice are left alone. */
    method StartNewGame()
      requires Valid()
      modifies this, players
      ensures Valid() && currentPlayer == players[0]
      ensures forall i :: 0 <= i < |players| ==> players[i].score == 0 && players[i].rollsUsed == 0
      ensures forall i :: 0 <= i < |players| ==>
        players[i].wins == old(players[i].wins) && players[i].losses == old(players[i].losses)
      ensures forall i :: 0 <= i < |dice| ==> unchanged(dice[i])
    {
      currentPlayer := players[0];
      ResetPlayers();
    }
  }

  /** Construction with its validation: a negative roster size or fewer than
      two players is refused; otherwise the engine is built. */
  method Create(countPlayers: int, countDice: int, maxRolls: int) returns (r: Result<DiceGame>)
    ensures r.Failure? <==> countPlayers < 2
    ensures countPlayers < 0 ==> r == Failure(NegativeCount)
    ensures 0 <= countPlayers < 2 ==> r == Failure(TooFewPlayers)
    ensures r.Success? ==> fresh(r.value) && r.value.Valid() && r.value.currentPlayer == null
    ensures r.Success? ==> fresh(r.value.players[0]) && forall i :: 0 <= i < |r.value.dice| ==> fresh(r.value.dice[i])
    ensures r.Success? ==> |r.value.players| == countPlayers && r.value.maxRolls == maxRolls
    ensures r.Success? ==> |r.value.dice| == if countDice < 0 then 0 else countDice
    ensures r.Success? ==> forall i :: 0 <= i < |r.value.dice| ==> !r.value.dice[i].held
    ensures r.Success? ==> r.value.players[0].score == 0 && r.value.players[0].rollsUsed == 0
    ensures r.Success? ==> r.value.players[0].wins == 0 && r.value.players[0].losses == 0
  {
    if countPlayers < 0 {
      return Failure(NegativeCount);
    }
    if countPlayers < 2 {
      return Failure(TooFewPlayers);
    }
    var game := new DiceGame(countPlayers, countDice, maxRolls);
    return Success(game);
  }

  /** Any valid game: the first player rolls once and play passes on; the
      player now current, and the one in every slot, is the first player
      object, with that roll already counted. */
  method SecondSlotSeesFirstSlotsRoll(countPlayers: int, countDice: int, maxRolls: int)
    returns (rollsSeenBySecond: int, everySlotIsFirst: bool)
    requires 2 <= countPlayers
    ensures rollsSeenBySecond == 1 && everySlotIsFirst
  {
    var r := Create(countPlayers, countDice, maxRolls);
    var game := r.value;
    game.StartNewGame();
    game.RollDice();
    var first := game.currentPlayer;
    var moved := game.NextPlayer();
    rollsSeenBySecond := game.players[1].rollsUsed;
    everySlotIsFirst := game.currentPlayer == first &&
      forall i :: 0 <= i < |game.players| ==> game.players[i] == first;
  }
}

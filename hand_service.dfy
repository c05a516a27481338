/** The poker hand service: starting a new hand of a game, and dealing the
    flop, turn and river of a hand onto its board. */
module HandService {
  import opened Wrappers
  import opened CommunityBoard
  import opened Blinds
  import opened Seating

  /** A table: its seated players, who holds the button and who posts the big
      blind, and its blind structure. */
  class Game {
    var players: seq<Player>
    var playerInBTN: Player
    var playerInBB: Player
    const gameStructure: GameStructure

    constructor (structure: GameStructure, roster: seq<Player>, button: Player, bigBlind: Player)
      ensures gameStructure == structure && players == roster
      ensures playerInBTN == button && playerInBB == bigBlind
    {
      gameStructure := structure;
      players, playerInBTN, playerInBB := roster, button, bigBlind;
    }
  }

  /** One hand: the blind level in force when it started (kept even when the
      game's level moves on), its participants, its own board, and the player
      whose turn it is. */
  class Hand {
    const blindLevel: BlindLevel
    const players: seq<Participant>
    const board: BoardEntity
    var currentToAct: Player

    constructor (level: BlindLevel, participants: seq<Participant>, toAct: Player)
      ensures blindLevel == level && players == participants && currentToAct == toAct
      ensures fresh(board) && board.Valid() && board.Value() == EmptyBoard
    {
      blindLevel, players, currentToAct := level, participants, toAct;
      board := new BoardEntity();
    }
  }

  /** Starts a new hand of the game at time now. The seating is worked out
      first, so a table that cannot be seated leaves the blind schedule as it
      was; otherwise the schedule takes the hand's start into account (timer
      started, level moved on if it ran out), the hand snapshots the level in
      force, gets one participant per seated player, a board of its own with
      every slot empty, and the player after the big blind to act. */
  method StartNewHand(game: Game, now: int) returns (r: Result<Hand, SeatError>)
    requires game.gameStructure.Valid()
    modifies game.gameStructure
    ensures game.gameStructure.Valid()
    ensures var seat := FirstToAct(game.players, game.playerInBTN, game.playerInBB);
            && (r.Success? <==> seat.Success?)
            && (r.Failure? ==> r.error == seat.error
                               && game.gameStructure.State() == old(game.gameStructure.State()))
            && (r.Success? ==> r.value.currentToAct == seat.value)
    ensures r.Success? ==>
              && fresh(r.value) && fresh(r.value.board)
              && game.gameStructure.State() == BeginHand(old(game.gameStructure.State()), now)
              && r.value.blindLevel == game.gameStructure.CurrentBlindLevel()
              && r.value.players == Participants(game.players, game.playerInBTN)
              && r.value.board.Valid() && r.value.board.Value() == EmptyBoard
  {
    var seat := FirstToAct(game.players, game.playerInBTN, game.playerInBB);
    if seat.Failure? {
      return Failure(seat.error);
    }
    game.gameStructure.StartHandClock(now);
    var level := game.gameStructure.CurrentBlindLevel();
    var hand := new Hand(level, Participants(game.players, game.playerInBTN), seat.value);
    r := Success(hand);
  }

  /** Deals the flop onto the hand's board; refused once the flop is out. */
  method Flop(hand: Hand, c1: Card, c2: Card, c3: Card) returns (r: Outcome<StageError>)
    requires hand.board.Valid()
    modifies hand.board
    ensures hand.board.Valid()
    ensures match DealFlop(old(hand.board.Value()), c1, c2, c3)
            case Success(b) => r == Pass && hand.board.Value() == b
            case Failure(e) => r == Fail(e) && hand.board.Value() == old(hand.board.Value())
  {
    var board := hand.board;
    if board.flop1.Some? {
      return Fail(FlopOutOfOrder);
    }
    board.flop1 := Some(c1);
    board.flop2 := Some(c2);
    board.flop3 := Some(c3);
    r := Pass;
  }

  /** Deals the turn onto the hand's board; refused before the flop and once
      the turn is out. */
  method Turn(hand: Hand, c: Card) returns (r: Outcome<StageError>)
    requires hand.board.Valid()
    modifies hand.board
    ensures hand.board.Valid()
    ensures match DealTurn(old(hand.board.Value()), c)
            case Success(b) => r == Pass && hand.board.Value() == b
            case Failure(e) => r == Fail(e) && hand.board.Value() == old(hand.board.Value())
  {
    var board := hand.board;
    if board.flop1.None? || board.turn.Some? {
      return Fail(TurnOutOfOrder);
    }
    board.turn := Some(c);
    r := Pass;
  }

  /** Deals the river onto the hand's board; refused before the turn and once
      the river is out. */
  method River(hand: Hand, c: Card) returns (r: Outcome<StageError>)
    requires hand.board.Valid()
    modifies hand.board
    ensures hand.board.Valid()
    ensures match DealRiver(old(hand.board.Value()), c)
            case Success(b) => r == Pass && hand.board.Value() == b
            case Failure(e) => r == Fail(e) && hand.board.Value() == old(hand.board.Value())
  {
    var board := hand.board;
    if board.turn.None? || board.river.Some? {
      return Fail(RiverOutOfOrder);
    }
    board.river := Some(c);
    r := Pass;
  }
}

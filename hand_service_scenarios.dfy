/** The hand service test cases, each a method whose postcondition states
    what the test asserts at its end; what it asserts part-way through is an
    `assert` at the same point. The game format's blind table is a
    parameter: any table in which 10/20 is followed by 15/30. Cards come from the
    deck as parameters. */
module HandServiceScenarios {
  import opened Wrappers
  import opened CommunityBoard
  import opened Blinds
  import opened Seating
  import opened HandService

  /** The blind table of the game format, with the game's starting level
      10/20 at index start and 15/30 right after it. */
  predicate FormatTable(levels: seq<BlindLevel>, start: nat) {
    && start + 1 < |levels|
    && levels[start] == Blind10_20
    && levels[start + 1] == Blind15_30
  }

  /** The fixture: four players at positions 1 to 4, the button on position 1,
      the big blind on position 3, blinds starting at 10/20 with no timer set. */
  method SetupGame(levels: seq<BlindLevel>, start: nat, blindLength: nat) returns (game: Game)
    requires FormatTable(levels, start) && blindLength > 0
    ensures fresh(game) && fresh(game.gameStructure)
    ensures game.gameStructure.Valid()
    ensures game.gameStructure.State() == Schedule(levels, start, blindLength, None)
    ensures game.players == [Player(1, 1), Player(2, 2), Player(3, 3), Player(4, 4)]
    ensures game.playerInBTN == game.players[0] && game.playerInBB == game.players[2]
    ensures FirstToAct(game.players, game.playerInBTN, game.playerInBB) == Success(game.players[3])
  {
    var structure := new GameStructure(levels, blindLength, start);
    var p1, p2, p3, p4 := Player(1, 1), Player(2, 2), Player(3, 3), Player(4, 4);
    FixtureSeatOrder(p1, p2, p3, p4);
    game := new Game(structure, [p1, p2, p3, p4], p1, p3);
  }

  /** The set-up game has four players, all at positive positions, plays
      10/20 and has no blind end time yet. */
  method GameSetup(levels: seq<BlindLevel>, start: nat, blindLength: nat) returns (game: Game)
    requires FormatTable(levels, start) && blindLength > 0
    ensures game.gameStructure.Valid()
    ensures |game.players| == 4
    ensures game.gameStructure.CurrentBlindLevel() == Blind10_20
    ensures game.gameStructure.currentBlindEndTime.None?
    ensures forall p :: p in game.players ==> p.gamePosition > 0
  {
    game := SetupGame(levels, start, blindLength);
  }

  /** The fixture game with its first hand started at time now. */
  method StartFirstHand(levels: seq<BlindLevel>, start: nat, blindLength: nat, now: int)
    returns (game: Game, hand: Hand)
    requires FormatTable(levels, start) && blindLength > 0
    ensures fresh(game) && fresh(game.gameStructure) && fresh(hand) && fresh(hand.board)
    ensures game.gameStructure.Valid()
    ensures game.gameStructure.State() == Schedule(levels, start, blindLength, Some(now + blindLength))
    ensures game.players == [Player(1, 1), Player(2, 2), Player(3, 3), Player(4, 4)]
    ensures game.playerInBTN == game.players[0] && game.playerInBB == game.players[2]
    ensures hand.blindLevel == Blind10_20
    ensures hand.players == Participants(game.players, game.playerInBTN)
    ensures FirstToAct(game.players, game.playerInBTN, game.playerInBB) == Success(hand.currentToAct)
    ensures hand.board.Valid() && hand.board.Value() == EmptyBoard
  {
    game := SetupGame(levels, start, blindLength);
    var r := StartNewHand(game, now);
    hand := r.value;
  }

  /** The first hand keeps the level at 10/20, starts the blind timer, has
      four participants and an empty board. */
  method FirstHandInGame(levels: seq<BlindLevel>, start: nat, blindLength: nat, now: int)
    returns (game: Game, hand: Hand)
    requires FormatTable(levels, start) && blindLength > 0
    ensures game.gameStructure.Valid()
    ensures hand.blindLevel == Blind10_20
    ensures game.gameStructure.currentBlindEndTime.Some?
    ensures hand.blindLevel == game.gameStructure.CurrentBlindLevel()
    ensures |hand.players| == 4
    ensures hand.board.flop1.None?
  {
    game := SetupGame(levels, start, blindLength);
    // before the first hand: level 10/20 and no end time
    assert game.gameStructure.CurrentBlindLevel() == Blind10_20;
    assert game.gameStructure.currentBlindEndTime.None?;
    var r := StartNewHand(game, now);
    hand := r.value;
  }

  /** Once the blind end time is in the past, the next hand plays 15/30, the
      game's level follows it, the timer ends in the future, and the new hand
      has a board of its own. */
  method BlindLevelIncrease(levels: seq<BlindLevel>, start: nat, blindLength: nat, now: int, later: int)
    returns (game: Game, first: Hand, next: Hand)
    requires FormatTable(levels, start) && blindLength > 0
    ensures game.gameStructure.Valid()
    ensures first.blindLevel == Blind10_20 && next.blindLevel == Blind15_30
    ensures next.blindLevel == game.gameStructure.CurrentBlindLevel()
    ensures game.gameStructure.currentBlindEndTime.Some?
    ensures game.gameStructure.currentBlindEndTime.value > later
    ensures first.board != next.board
  {
    game, first := StartFirstHand(levels, start, blindLength, now);
    // the first hand has set the end time
    assert game.gameStructure.currentBlindEndTime.Some?;
    game.gameStructure.SetCurrentBlindEndTime(Some(later - 1));
    ghost var before := game.gameStructure.State();
    assert before == Schedule(levels, start, blindLength, Some(later - 1));
    assert Expired(before, later) && Current(BeginHand(before, later)) == Blind15_30;
    var r := StartNewHand(game, later);
    next := r.value;
  }

  /** Dealing the flop fills the three flop slots. */
  method FlopFillsFlopSlots(levels: seq<BlindLevel>, start: nat, blindLength: nat, now: int,
                            c1: Card, c2: Card, c3: Card)
    returns (hand: Hand, dealt: Outcome<StageError>)
    requires FormatTable(levels, start) && blindLength > 0
    ensures dealt == Pass
    ensures hand.board.flop1.Some? && hand.board.flop2.Some? && hand.board.flop3.Some?
  {
    var game;
    game, hand := StartFirstHand(levels, start, blindLength, now);
    // nothing is on the board before the flop
    assert hand.board.flop1.None?;
    dealt := Flop(hand, c1, c2, c3);
  }

  /** The turn after the flop fills the turn slot; the flop stays, the river
      is still empty. */
  method TurnAfterFlop(levels: seq<BlindLevel>, start: nat, blindLength: nat, now: int,
                       c1: Card, c2: Card, c3: Card, c4: Card)
    returns (hand: Hand, dealt: Outcome<StageError>)
    requires FormatTable(levels, start) && blindLength > 0
    ensures dealt == Pass
    ensures hand.board.flop1.Some? && hand.board.turn.Some? && hand.board.river.None?
  {
    var game;
    game, hand := StartFirstHand(levels, start, blindLength, now);
    dealt := Flop(hand, c1, c2, c3);
    // after the flop: flop set, turn still empty
    assert hand.board.turn.None? && hand.board.flop1.Some?;
    dealt := Turn(hand, c4);
  }

  /** The river after flop and turn leaves the whole board dealt. */
  method RiverAfterTurn(levels: seq<BlindLevel>, start: nat, blindLength: nat, now: int,
                        c1: Card, c2: Card, c3: Card, c4: Card, c5: Card)
    returns (hand: Hand, dealt: Outcome<StageError>)
    requires FormatTable(levels, start) && blindLength > 0
    ensures dealt == Pass
    ensures hand.board.flop3.Some? && hand.board.turn.Some? && hand.board.river.Some?
    ensures hand.board.Valid() && Dealt(hand.board.Value()) == [c1, c2, c3, c4, c5]
  {
    var game;
    game, hand := StartFirstHand(levels, start, blindLength, now);
    dealt := Flop(hand, c1, c2, c3);
    dealt := Turn(hand, c4);
    dealt := River(hand, c5);
  }

  /** A second flop is refused. */
  method DuplicateFlop(levels: seq<BlindLevel>, start: nat, blindLength: nat, now: int,
                       c1: Card, c2: Card, c3: Card, d1: Card, d2: Card, d3: Card)
    returns (second: Outcome<StageError>)
    requires FormatTable(levels, start) && blindLength > 0
    ensures second == Fail(FlopOutOfOrder)
  {
    var game, hand := StartFirstHand(levels, start, blindLength, now);
    var first := Flop(hand, c1, c2, c3);
    second := Flop(hand, d1, d2, d3);
  }

  /** A turn before the flop is refused. */
  method TurnBeforeFlop(levels: seq<BlindLevel>, start: nat, blindLength: nat, now: int, c: Card)
    returns (dealt: Outcome<StageError>)
    requires FormatTable(levels, start) && blindLength > 0
    ensures dealt == Fail(TurnOutOfOrder)
  {
    var game, hand := StartFirstHand(levels, start, blindLength, now);
    dealt := Turn(hand, c);
  }

  /** A second turn is refused. */
  method DuplicateTurn(levels: seq<BlindLevel>, start: nat, blindLength: nat, now: int,
                       c1: Card, c2: Card, c3: Card, c4: Card, d4: Card)
    returns (second: Outcome<StageError>)
    requires FormatTable(levels, start) && blindLength > 0
    ensures second == Fail(TurnOutOfOrder)
  {
    var game, hand := StartFirstHand(levels, start, blindLength, now);
    var dealt := Flop(hand, c1, c2, c3);
    dealt := Turn(hand, c4);
    second := Turn(hand, d4);
  }

  /** A river straight after the flop is refused. */
  method RiverBeforeTurn(levels: seq<BlindLevel>, start: nat, blindLength: nat, now: int,
                         c1: Card, c2: Card, c3: Card, c5: Card)
    returns (dealt: Outcome<StageError>)
    requires FormatTable(levels, start) && blindLength > 0
    ensures dealt == Fail(RiverOutOfOrder)
  {
    var game, hand := StartFirstHand(levels, start, blindLength, now);
    dealt := Flop(hand, c1, c2, c3);
    dealt := River(hand, c5);
  }

  /** A second river is refused. */
  method DuplicateRiver(levels: seq<BlindLevel>, start: nat, blindLength: nat, now: int,
                        c1: Card, c2: Card, c3: Card, c4: Card, c5: Card, d5: Card)
    returns (second: Outcome<StageError>)
    requires FormatTable(levels, start) && blindLength > 0
    ensures second == Fail(RiverOutOfOrder)
  {
    var game, hand := StartFirstHand(levels, start, blindLength, now);
    var dealt := Flop(hand, c1, c2, c3);
    dealt := Turn(hand, c4);
    dealt := River(hand, c5);
    second := River(hand, d5);
  }

  /** Sorting the new hand's participants puts the button first and the big
      blind third, and the player to act is the fourth, right after the big
      blind. */
  method NextToActAtStart(levels: seq<BlindLevel>, start: nat, blindLength: nat, now: int)
    returns (game: Game, hand: Hand, sorted: seq<Participant>)
    requires FormatTable(levels, start) && blindLength > 0
    ensures |sorted| == 4
    ensures Ascending(sorted) && multiset(sorted) == multiset(hand.players)
    ensures sorted[0].player == game.playerInBTN
    ensures sorted[2].player == game.playerInBB
    ensures sorted[3].player == hand.currentToAct
  {
    game, hand := StartFirstHand(levels, start, blindLength, now);
    FixtureSeatOrder(game.players[0], game.players[1], game.players[2], game.players[3]);
    sorted := SortByRotation(hand.players);
  }
}

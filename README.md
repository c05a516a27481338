# Poker hand service: board dealing, blind escalation and seat order

A Dafny model of the core of the PokerServer hand service, as its test
`HandServiceTest.java` pins it down:

- **Community board** (`community_board.dfy`). A hand's board has five
  write-once slots (`flop1`, `flop2`, `flop3`, `turn`, `river`), dealt in the
  order flop, turn, river. A skipped or repeated street is refused; the
  service throws `IllegalStateException`, and the model returns a `StageError`.
  The pure functions `DealFlop`, `DealTurn` and `DealRiver` specify each step.
  `BoardEntity` is the board entity whose fields the service updates in place.
- **Blind schedule** (`blinds.dfy`). The game structure holds a table of blind
  levels, the level in force (kept as its index in the table), the level
  length and a nullable end time. Starting a hand starts the timer if it is unset. If the
  level in force has run out, starting a hand moves to the next level, stays
  on the last level at the end of the table, and restarts the timer. The pure
  function `BeginHand` specifies this, and the `GameStructure` class carries
  it out in place.
- **Seat order** (`seating.dfy`). Each participant of a new hand gets a
  rotation order, its clockwise distance from the button:
  `(position - buttonPosition + n) mod n`. Participants sort by that
  order. The player whose order is one past the big blind's acts
  first.
- **Hand service** (`hand_service.dfy`). `StartNewHand` seats the table,
  advances the blind schedule, and creates a hand. The hand keeps the level in
  force as its snapshot and gets a fresh empty board. `Flop`, `Turn` and
  `River` deal onto a hand's board.
- **Test cases** (`hand_service_scenarios.dfy`). Each test method of
  `HandServiceTest.java`, and its `setupGame` fixture, is a Dafny method.
  Its postcondition states the test's final assertions. The assertions the
  test makes part-way through are `assert` statements at the same point in
  the method body. All of them are proved from the contracts above. The
  blind table of the game format (`TWO_HR_SIXPPL`) is not part of this
  model, so the methods take any table in which 10/20 is directly followed
  by 15/30.

Time is an integer clock passed in as `now`, in the units of the level
length. Cards are parameters supplied by the deck; the model records only
which card went into which slot. `wrappers.dfy` holds the `Option`, `Result`
and `Outcome` types.

Design choices where the test leaves the behaviour open:
- A level runs out when its end time is at or before `now`. The test only
  exercises an end time strictly in the past.
- `StartNewHand` works out the seating before it touches the blind schedule.
  A table that cannot be seated (empty roster, button or big blind not
  seated) therefore fails without changing the game.
- The "mod" of the rotation formula is Java's `%`, which truncates toward
  zero (`JavaRem`). The formula adds n first, so for positions 1 to n the
  operand is never negative and the choice does not show.
- On a table whose positions are not 1 to n, rotation orders can collide or
  leave the order after the big blind unused. `FirstToAct` returns the first
  player in roster order whose order matches, and `NoSeatAfterBigBlind` when
  none does. `GappedSeatsDependOnRosterOrder` shows that the result then
  depends on the roster's order.

## Model

| member | source | states |
|---|---|---|
| CommunityBoard.Dealt | src/test/java/com/hyphenated/card/service/HandServiceTest.java:115-121 | the cards showing number 0, 3, 4 or 5 according to the stage the filled slots give |
| CommunityBoard.DealFlop | src/test/java/com/hyphenated/card/service/HandServiceTest.java:86-96 | the flop succeeds exactly on a board with nothing dealt; it then fills all three flop slots and leaves turn and river empty; otherwise it fails with the flop error |
| CommunityBoard.DealTurn | src/test/java/com/hyphenated/card/service/HandServiceTest.java:98-109 | the turn succeeds exactly after the flop and before any turn; it adds one card after the flop, which stays, and leaves the river empty; otherwise it fails with the turn error |
| CommunityBoard.DealRiver | src/test/java/com/hyphenated/card/service/HandServiceTest.java:111-122 | the river succeeds exactly after the turn and before any river; it adds the fifth card; otherwise it fails with the river error |
| CommunityBoard.Apply | src/test/java/com/hyphenated/card/service/HandServiceTest.java:124-164 | any deal request succeeds exactly when its street is the next one due, and then advances the stage by one and extends the dealt cards |
| CommunityBoard.Replay | src/test/java/com/hyphenated/card/service/HandServiceTest.java:124-164 | over any run of deal requests, failed ones included, the board stays well formed and every card already dealt stays in its slot (write-once) |
| CommunityBoard.AllSucceedIffInDealOrder | src/test/java/com/hyphenated/card/service/HandServiceTest.java:124-164 | a run of deal requests succeeds at every step if and only if it neither skips nor repeats a street |
| CommunityBoard.FullDealFillsBoard | src/test/java/com/hyphenated/card/service/HandServiceTest.java:111-122 | flop, turn and river dealt in order from an empty board all succeed and leave the five cards on the board in deal order |
| CommunityBoard.BoardEntity.constructor | src/test/java/com/hyphenated/card/service/HandServiceTest.java:64-66 | a new board has every slot empty |
| Blinds.BeginHand | src/test/java/com/hyphenated/card/service/HandServiceTest.java:69-84 | starting a hand leaves the end time strictly after now; the first hand starts the timer and keeps the level; an unexpired level is kept unchanged; an expired one gives way to the next level of the table, the level index moving by exactly one place (the last level stays) |
| Blinds.BeginHandEscalates | src/test/java/com/hyphenated/card/service/HandServiceTest.java:77-80 | on an escalating table a hand never starts at a lower big blind than before, and an expired level that is not the last is replaced by a strictly higher one |
| Blinds.HandsStartedMoveForward | src/test/java/com/hyphenated/card/service/HandServiceTest.java:72-82 | over any run of hands the level moves forward through the table at most one level per hand, and the timer ends after the last hand's start |
| Blinds.GameStructure.constructor | src/test/java/com/hyphenated/card/service/HandServiceTest.java:189-194 | a new structure holds the given table on the given starting level, with no end time |
| Blinds.GameStructure.SetCurrentBlindEndTime | src/test/java/com/hyphenated/card/service/HandServiceTest.java:77 | only the end time changes |
| Blinds.GameStructure.StartHandClock | src/test/java/com/hyphenated/card/service/HandServiceTest.java:58-61 | the structure's new state is what BeginHand gives for the old state and now |
| Seating.Participants | src/test/java/com/hyphenated/card/service/HandServiceTest.java:174-176 | with seats numbered 1 to n and the button seated, the participants' rotation orders are 0 to n - 1, one per player, so no two participants share a place in the rotation |
| Seating.Insert | src/test/java/com/hyphenated/card/service/HandServiceTest.java:177 | inserting into an ascending list keeps it ascending, one longer, and adds exactly the one participant |
| Seating.SortByRotation | src/test/java/com/hyphenated/card/service/HandServiceTest.java:177 | sorting participants yields them ascending by rotation order and as a permutation of the input |
| Seating.SortKeepsOrdersDistinct | src/test/java/com/hyphenated/card/service/HandServiceTest.java:177 | sorting keeps rotation orders distinct when they were distinct |
| Seating.FindByOrder | src/test/java/com/hyphenated/card/service/HandServiceTest.java:180 | the participant found has the requested order and is the first in the list that has it; none is found only when no participant has that order |
| Seating.FirstToAct | src/test/java/com/hyphenated/card/service/HandServiceTest.java:180 | each of empty roster, button not seated and big blind not seated fails with its own error, if and only if it holds; on success the player is seated, sits at the rotation order after the big blind, and is the first in roster order to do so |
| Seating.NumberedSeatOrders | src/test/java/com/hyphenated/card/service/HandServiceTest.java:201-226 | with seats numbered 1 to n, rotation orders lie in 0 to n - 1 and no two seats share one |
| Seating.OrdersAreIndices | src/test/java/com/hyphenated/card/service/HandServiceTest.java:177-179 | an ascending list of n distinct orders in 0 to n - 1 has order k at index k |
| Seating.NumberedSeatsSortByRotation | src/test/java/com/hyphenated/card/service/HandServiceTest.java:175-179 | with seats numbered 1 to n, sorted participant k is the player whose rotation order is k, so the button comes first |
| Seating.SeatWithOrder | src/test/java/com/hyphenated/card/service/HandServiceTest.java:177-179 | with seats numbered 1 to n, every order 0 to n - 1 belongs to some seated player, and the sorted participants hold that player at that index |
| Seating.FindByOrderUnique | src/test/java/com/hyphenated/card/service/HandServiceTest.java:180 | when rotation orders are distinct, the search for a participant's order finds that participant |
| Seating.NumberedSeatsFirstToAct | src/test/java/com/hyphenated/card/service/HandServiceTest.java:180 | with seats numbered 1 to n, the seated player at the rotation order after the big blind is the first to act |
| Seating.SeatAfterBigBlind | src/test/java/com/hyphenated/card/service/HandServiceTest.java:179-180 | with seats numbered 1 to n, some seated player has the order one past the big blind's (modulo n), and the sorted participants hold that player at that index |
| Seating.SeatOrderForNumberedSeats | src/test/java/com/hyphenated/card/service/HandServiceTest.java:166-181 | with seats numbered 1 to n: button at index 0, big blind at its rotation order, first to act at the index after it |
| Seating.FixtureSeatOrder | src/test/java/com/hyphenated/card/service/HandServiceTest.java:175-180 | positions 1 to 4, button on 1, big blind on 3: sorted index 0 is the button, index 2 the big blind, and index 3 (position 4) acts first |
| Seating.GappedSeatsDependOnRosterOrder | src/test/java/com/hyphenated/card/service/HandServiceTest.java:180 | on seats 1, 3 and 4 (not numbered 1 to n), button on 1 and big blind on 3, the first to act is seat 1 or seat 4 depending on which the roster lists first |
| HandService.Game.constructor | src/test/java/com/hyphenated/card/service/HandServiceTest.java:225-227 | a game with the given structure, roster, button and big blind |
| HandService.Hand.constructor | src/test/java/com/hyphenated/card/service/HandServiceTest.java:63-66 | a hand with the given level, participants and player to act, and a fresh board with every slot empty |
| HandService.StartNewHand | src/test/java/com/hyphenated/card/service/HandServiceTest.java:58-66 | fails, leaving the schedule as it was, exactly when the table cannot be seated; otherwise the schedule moves as BeginHand says, and the hand snapshots the level now in force, has one participant per player, a fresh empty board and the first to act |
| HandService.Flop | src/test/java/com/hyphenated/card/service/HandServiceTest.java:92-95 | the board changes as DealFlop says, and is left unchanged when the flop is refused |
| HandService.Turn | src/test/java/com/hyphenated/card/service/HandServiceTest.java:106-108 | the board changes as DealTurn says, and is left unchanged when the turn is refused |
| HandService.River | src/test/java/com/hyphenated/card/service/HandServiceTest.java:117-121 | the board changes as DealRiver says, and is left unchanged when the river is refused |
| HandServiceScenarios.SetupGame | src/test/java/com/hyphenated/card/service/HandServiceTest.java:183-232 | four players at positions 1 to 4, button on position 1, big blind on position 3, level 10/20, no end time; the player on position 4 is the first to act |
| HandServiceScenarios.GameSetup | src/test/java/com/hyphenated/card/service/HandServiceTest.java:38-50 | the set-up game has four players, all at positive positions, plays 10/20 and has no blind end time |
| HandServiceScenarios.StartFirstHand | src/test/java/com/hyphenated/card/service/HandServiceTest.java:88-89 | the fixture's first hand is at 10/20, starts the timer, and has every participant, the first to act and an empty board |
| HandServiceScenarios.FirstHandInGame | src/test/java/com/hyphenated/card/service/HandServiceTest.java:52-67 | before the hand, level 10/20 and no end time (asserted in the body); after it, the hand is at 10/20 equal to the game's level, the end time is set, and there are four participants and flop1 is empty |
| HandServiceScenarios.BlindLevelIncrease | src/test/java/com/hyphenated/card/service/HandServiceTest.java:69-84 | the first hand sets the end time (asserted in the body); after the end time passes the next hand is at 15/30 equal to the game's level, the end time is after the new start, and the two hands' boards differ |
| HandServiceScenarios.FlopFillsFlopSlots | src/test/java/com/hyphenated/card/service/HandServiceTest.java:86-96 | flop1 is empty before the flop (asserted in the body); the flop then fills the three flop slots |
| HandServiceScenarios.TurnAfterFlop | src/test/java/com/hyphenated/card/service/HandServiceTest.java:98-109 | after the flop, flop1 is set and the turn is empty (asserted in the body); then the turn is set, the flop stays and the river is empty |
| HandServiceScenarios.RiverAfterTurn | src/test/java/com/hyphenated/card/service/HandServiceTest.java:111-122 | after flop, turn and river all five cards are on the board in deal order |
| HandServiceScenarios.DuplicateFlop | src/test/java/com/hyphenated/card/service/HandServiceTest.java:124-130 | a second flop fails |
| HandServiceScenarios.TurnBeforeFlop | src/test/java/com/hyphenated/card/service/HandServiceTest.java:132-137 | a turn before the flop fails |
| HandServiceScenarios.DuplicateTurn | src/test/java/com/hyphenated/card/service/HandServiceTest.java:139-146 | a second turn fails |
| HandServiceScenarios.RiverBeforeTurn | src/test/java/com/hyphenated/card/service/HandServiceTest.java:148-154 | a river straight after the flop fails |
| HandServiceScenarios.DuplicateRiver | src/test/java/com/hyphenated/card/service/HandServiceTest.java:156-164 | a second river fails |
| HandServiceScenarios.NextToActAtStart | src/test/java/com/hyphenated/card/service/HandServiceTest.java:166-181 | the sorted participants are a sorted permutation of the hand's; the button is at index 0, the big blind at index 2, and the player to act at index 3 |

## Left out

- Persistence (`GameDao`, `PlayerDao`, `flushAndClear`) and database ids (`getId() > 0`): storage plumbing. The model shows that two hands have different boards through object identity (a fresh board per hand).
- `java.util.Date` and the wall clock: time is an integer `now` passed in.
- Deck construction, shuffling, and the guarantee that dealt cards are distinct: these belong to a card-source component that is not part of this model. Cards are parameters.
- The concrete blind table of `CommonTournamentFormats.TWO_HR_SIXPPL` and its level length are not part of this model. The table is an abstract sequence of levels; only `BeginHandEscalates` assumes that it escalates. The length is a positive integer.
- Game metadata (name, game type, started flag, players remaining), player names and chip counts: none of it takes part in the asserted behaviour.
- Rotating the button and the big blind between hands is not part of this model, because it is not observable here. Each hand reads the positions currently set on the game.
- Heads-up play (two players or fewer) has no separate convention. The general rotation formula applies, which for one player makes the button act first.
- Concurrency: per-game mutual exclusion is assumed; every operation is a single sequential step.
- Betting, pots, folds and showdown are not part of this model.
- GameStructure.constructor: the level in force is kept as an index into the blind table, not as a separate value, so a current level that is not in the table (which a setter taking a level by value allows) cannot be represented.
- GameSetup: the game's started flag and database id are not modelled (metadata and persistence, see above).
- FirstToAct: on seats not numbered 1 to n, colliding rotation orders are resolved by roster order; the model does not promise any other tie-break there.

/** The community board of one hand: five write-once card slots dealt in the
    order flop (three cards), turn, river. */
module CommunityBoard {
  import opened Wrappers

  /** A dealt card. Rank and suit come from the deck, which is not modelled;
      only the identity of the card matters here. */
  datatype Card = Card(index: nat)

  /** The stages of the board, derived from which slots are filled. */
  datatype Stage = Preflop | FlopDealt | TurnDealt | RiverDealt

  /** The IllegalStateException the service throws when a stage is skipped or
      repeated, tagged with the street that was requested. */
  datatype StageError = FlopOutOfOrder | TurnOutOfOrder | RiverOutOfOrder

  /** The five slots of a board, as the board entity stores them (null is None). */
  datatype Board = Board(flop1: Option<Card>, flop2: Option<Card>, flop3: Option<Card>,
                         turn: Option<Card>, river: Option<Card>)

  /** The board a new hand starts with: every slot empty. */
  const EmptyBoard: Board := Board(None, None, None, None, None)

  /** The slots are filled in deal order: the three flop cards together, then
      the turn, then the river. */
  predicate WellFormed(b: Board) {
    && b.flop2.Some? == b.flop1.Some?
    && b.flop3.Some? == b.flop1.Some?
    && (b.turn.Some? ==> b.flop1.Some?)
    && (b.river.Some? ==> b.turn.Some?)
  }

  function StageOf(b: Board): Stage {
    if b.river.Some? then RiverDealt
    else if b.turn.Some? then TurnDealt
    else if b.flop1.Some? then FlopDealt
    else Preflop
  }

  /** Position of a stage in the deal order. */
  function StageIndex(st: Stage): nat {
    match st
    case Preflop => 0
    case FlopDealt => 1
    case TurnDealt => 2
    case RiverDealt => 3
  }

  /** Number of community cards showing at a stage. */
  function CardsShowing(st: Stage): nat {
    match st
    case Preflop => 0
    case FlopDealt => 3
    case TurnDealt => 4
    case RiverDealt => 5
  }

  /** The cards on the board, in the order they were dealt. */
  function Dealt(b: Board): (cards: seq<Card>)
    requires WellFormed(b)
    ensures |cards| == CardsShowing(StageOf(b))
  {
    (if b.flop1.Some? then [b.flop1.value, b.flop2.value, b.flop3.value] else [])
    + (if b.turn.Some? then [b.turn.value] else [])
    + (if b.river.Some? then [b.river.value] else [])
  }

  /** Dealing the flop: refused once the first flop slot is filled. */
  function DealFlop(b: Board, c1: Card, c2: Card, c3: Card): (r: Result<Board, StageError>)
    requires WellFormed(b)
    ensures r.Success? <==> StageOf(b) == Preflop
    ensures r.Failure? ==> r.error == FlopOutOfOrder
    ensures r.Success? ==> && WellFormed(r.value)
                           && StageOf(r.value) == FlopDealt
                           && Dealt(r.value) == Dealt(b) + [c1, c2, c3]
  {
    if b.flop1.Some? then Failure(FlopOutOfOrder)
    else Success(b.(flop1 := Some(c1), flop2 := Some(c2), flop3 := Some(c3)))
  }

  /** Dealing the turn: refused before the flop and once the turn is filled. */
  function DealTurn(b: Board, c: Card): (r: Result<Board, StageError>)
    requires WellFormed(b)
    ensures r.Success? <==> StageOf(b) == FlopDealt
    ensures r.Failure? ==> r.error == TurnOutOfOrder
    ensures r.Success? ==> && WellFormed(r.value)
                           && StageOf(r.value) == TurnDealt
                           && Dealt(r.value) == Dealt(b) + [c]
  {
    if b.flop1.None? || b.turn.Some? then Failure(TurnOutOfOrder)
    else Success(b.(turn := Some(c)))
  }

  /** Dealing the river: refused before the turn and once the river is filled. */
  function DealRiver(b: Board, c: Card): (r: Result<Board, StageError>)
    requires WellFormed(b)
    ensures r.Success? <==> StageOf(b) == TurnDealt
    ensures r.Failure? ==> r.error == RiverOutOfOrder
    ensures r.Success? ==> && WellFormed(r.value)
                           && StageOf(r.value) == RiverDealt
                           && Dealt(r.value) == Dealt(b) + [c]
  {
    if b.turn.None? || b.river.Some? then Failure(RiverOutOfOrder)
    else Success(b.(river := Some(c)))
  }

  /** A request to deal one street, with the cards the deck hands out for it. */
  datatype Deal = FlopDeal(c1: Card, c2: Card, c3: Card) | TurnDeal(c: Card) | RiverDeal(c: Card)

  /** Position of a street in the deal order. */
  function Street(d: Deal): nat {
    match d
    case FlopDeal(_, _, _) => 0
    case TurnDeal(_) => 1
    case RiverDeal(_) => 2
  }

  function Apply(b: Board, d: Deal): (r: Result<Board, StageError>)
    requires WellFormed(b)
    ensures r.Success? <==> Street(d) == StageIndex(StageOf(b))
    ensures r.Success? ==> && WellFormed(r.value)
                           && StageIndex(StageOf(r.value)) == StageIndex(StageOf(b)) + 1
                           && Dealt(b) < Dealt(r.value)
  {
    match d
    case FlopDeal(c1, c2, c3) => DealFlop(b, c1, c2, c3)
    case TurnDeal(c) => DealTurn(b, c)
    case RiverDeal(c) => DealRiver(b, c)
  }

  /** The board after a run of deal requests; a request that fails leaves the
      board exactly as it was. Whatever the run, the board stays well formed
      and every card already dealt stays where it is. */
  function Replay(b: Board, ds: seq<Deal>): (r: Board)
    requires WellFormed(b)
    ensures WellFormed(r)
    ensures Dealt(b) <= Dealt(r)
    decreases |ds|
  {
    if ds == [] then b
    else
      var next := Apply(b, ds[0]);
      Replay(if next.Success? then next.value else b, ds[1..])
  }

  /** Every request of the run succeeds. */
  predicate AllSucceed(b: Board, ds: seq<Deal>)
    requires WellFormed(b)
    decreases |ds|
  {
    ds == [] || (Apply(b, ds[0]).Success? && AllSucceed(Apply(b, ds[0]).value, ds[1..]))
  }

  /** The run names the streets still to come, one after the other, from
      street k on, and no street past the river. */
  predicate InDealOrderFrom(k: nat, ds: seq<Deal>) {
    k + |ds| <= 3 && forall i :: 0 <= i < |ds| ==> Street(ds[i]) == k + i
  }

  /** A run of deal requests succeeds at every step exactly when it neither
      skips nor repeats a street. */
  lemma {:induction false} AllSucceedIffInDealOrder(b: Board, ds: seq<Deal>)
    requires WellFormed(b)
    ensures AllSucceed(b, ds) <==> InDealOrderFrom(StageIndex(StageOf(b)), ds)
    decreases |ds|
  {
    var k := StageIndex(StageOf(b));
    if ds != [] {
      var next := Apply(b, ds[0]);
      if next.Success? {
        AllSucceedIffInDealOrder(next.value, ds[1..]);
        if InDealOrderFrom(k + 1, ds[1..]) {
          forall i | 0 <= i < |ds| ensures Street(ds[i]) == k + i {
            if i > 0 { assert ds[i] == ds[1..][i - 1]; }
          }
        }
        if InDealOrderFrom(k, ds) {
          forall i | 0 <= i < |ds[1..]| ensures Street(ds[1..][i]) == k + 1 + i {
            assert ds[1..][i] == ds[i + 1];
          }
        }
      }
    }
  }

  /** The deal the service goes through in one hand: flop, turn and river
      each succeed from an empty board and leave all five slots filled. */
  lemma FullDealFillsBoard(c1: Card, c2: Card, c3: Card, c4: Card, c5: Card)
    ensures DealFlop(EmptyBoard, c1, c2, c3).Success?
    ensures var f := DealFlop(EmptyBoard, c1, c2, c3).value;
            && DealTurn(f, c4).Success?
            && DealRiver(DealTurn(f, c4).value, c5).Success?
            && Dealt(DealRiver(DealTurn(f, c4).value, c5).value) == [c1, c2, c3, c4, c5]
  {
  }

  /** The state the board entity keeps: one field per slot, updated in place
      by the hand service. */
  class BoardEntity {
    var flop1: Option<Card>
    var flop2: Option<Card>
    var flop3: Option<Card>
    var turn: Option<Card>
    var river: Option<Card>

    function Value(): Board
      reads this
    {
      Board(flop1, flop2, flop3, turn, river)
    }

    predicate Valid()
      reads this
    {
      WellFormed(Value())
    }

    constructor ()
      ensures Valid() && Value() == EmptyBoard
    {
      flop1, flop2, flop3, turn, river := None, None, None, None, None;
    }
  }
}

/** Seat order for a new hand: every seated player gets a rotation order
    counted clockwise from the button, participants sort by that order, and
    the player after the big blind acts first. */
module Seating {
  import opened Wrappers

  /** A seated player: an identity and the fixed table seat (game position). */
  datatype Player = Player(id: nat, gamePosition: int)

  /** A player's place in one hand, with the rotation order fixed when the
      hand starts. */
  datatype Participant = Participant(player: Player, order: int)

  /** Configurations for which no seat order can be given. */
  datatype SeatError = EmptyRoster | ButtonNotSeated | BigBlindNotSeated | NoSeatAfterBigBlind

  /** Java's remainder: it truncates toward zero, so the result takes the sign
      of x. */
  function JavaRem(x: int, n: int): (r: int)
    requires n > 0
    ensures -n < r < n
    ensures x >= 0 ==> 0 <= r
  {
    if x >= 0 then x % n else -((-x) % n)
  }

  /** Clockwise distance of a seat from the button, among n seats. */
  function RotationOrder(position: int, buttonPosition: int, n: nat): int
    requires n > 0
  {
    JavaRem(position - buttonPosition + n, n)
  }

  /** The participants of a hand, in roster order, with their rotation orders.
      When the seats are numbered 1 to n and the button is seated, the orders
      are 0 to n - 1, one each. */
  function Participants(roster: seq<Player>, button: Player): (ps: seq<Participant>)
    ensures |ps| == |roster|
    ensures forall i :: 0 <= i < |ps| ==> ps[i].player == roster[i]
    ensures forall i :: 0 <= i < |ps| ==>
              ps[i].order == RotationOrder(roster[i].gamePosition, button.gamePosition, |roster|)
    ensures SeatsNumberedFromOne(roster) && button in roster ==>
              && DistinctOrders(ps)
              && (forall i :: 0 <= i < |ps| ==> 0 <= ps[i].order < |ps|)
  {
    var ps := seq(|roster|, i requires 0 <= i < |roster| =>
      Participant(roster[i], RotationOrder(roster[i].gamePosition, button.gamePosition, |roster|)));
    NumberedSeatRotation(roster, button, ps);
    ps
  }

  predicate Ascending(s: seq<Participant>) {
    forall i, j :: 0 <= i < j < |s| ==> s[i].order <= s[j].order
  }

  predicate DistinctOrders(s: seq<Participant>) {
    forall i, j :: 0 <= i < j < |s| ==> s[i].order != s[j].order
  }

  /** Inserts p before the first participant whose order is not below p's. */
  function Insert(p: Participant, s: seq<Participant>): (r: seq<Participant>)
    requires Ascending(s)
    ensures |r| == |s| + 1
    ensures Ascending(r) && multiset(r) == multiset(s) + multiset{p}
  {
    if s == [] || p.order <= s[0].order then [p] + s
    else
      var rest := Insert(p, s[1..]);
      assert s == [s[0]] + s[1..];
      InsertAtLeastHead(p, s, rest);
      [s[0]] + rest
  }

  /** What is inserted behind the head of an ascending list still has an
      order at least the head's. */
  lemma InsertAtLeastHead(p: Participant, s: seq<Participant>, rest: seq<Participant>)
    requires Ascending(s) && s != [] && p.order > s[0].order
    requires multiset(rest) == multiset(s[1..]) + multiset{p}
    ensures forall j :: 0 <= j < |rest| ==> s[0].order <= rest[j].order
  {
    forall j | 0 <= j < |rest| ensures s[0].order <= rest[j].order {
      assert rest[j] in multiset(rest);
      if rest[j] != p {
        assert rest[j] in s[1..];
      }
    }
  }

  /** Participants sorted by rotation order, as the hand's participants sort
      when compared with each other: ascending and a permutation of the
      input. */
  function SortByRotation(ps: seq<Participant>): (r: seq<Participant>)
    ensures |r| == |ps|
    ensures Ascending(r) && multiset(r) == multiset(ps)
  {
    if ps == [] then []
    else
      assert ps == [ps[0]] + ps[1..];
      Insert(ps[0], SortByRotation(ps[1..]))
  }

  /** Inserting a participant whose order is new keeps the orders distinct. */
  lemma {:induction false} InsertKeepsOrdersDistinct(p: Participant, s: seq<Participant>)
    requires Ascending(s) && DistinctOrders(s)
    requires forall q :: q in s ==> q.order != p.order
    ensures DistinctOrders(Insert(p, s))
  {
    if s != [] && p.order > s[0].order {
      var rest := Insert(p, s[1..]);
      assert s == [s[0]] + s[1..];
      InsertKeepsOrdersDistinct(p, s[1..]);
      forall j | 0 <= j < |rest| ensures s[0].order != rest[j].order {
        assert rest[j] in multiset(rest);
        if rest[j] != p {
          assert rest[j] in s[1..];
        }
      }
      ConsKeepsOrdersDistinct(s[0], rest);
    }
  }

  lemma ConsKeepsOrdersDistinct(x: Participant, rest: seq<Participant>)
    requires DistinctOrders(rest)
    requires forall j :: 0 <= j < |rest| ==> x.order != rest[j].order
    ensures DistinctOrders([x] + rest)
  {
    var r := [x] + rest;
    forall i, j | 0 <= i < j < |r| ensures r[i].order != r[j].order {
      assert r[j] == rest[j - 1];
      if i > 0 {
        assert r[i] == rest[i - 1];
      }
    }
  }

  /** Sorting keeps the orders distinct when they were distinct before. */
  lemma {:induction false} SortKeepsOrdersDistinct(ps: seq<Participant>)
    requires DistinctOrders(ps)
    ensures DistinctOrders(SortByRotation(ps))
  {
    if ps != [] {
      var rest := SortByRotation(ps[1..]);
      assert ps == [ps[0]] + ps[1..];
      SortKeepsOrdersDistinct(ps[1..]);
      forall q | q in rest ensures q.order != ps[0].order {
        assert q in multiset(rest);
        assert q in ps[1..];
      }
      InsertKeepsOrdersDistinct(ps[0], rest);
    }
  }

  /** The first participant with the given rotation order, if any. */
  function FindByOrder(ps: seq<Participant>, target: int): (r: Option<Participant>)
    ensures r.Some? ==> r.value in ps && r.value.order == target
    ensures r.Some? ==> exists k :: 0 <= k < |ps| && ps[k] == r.value
                                    && forall j :: 0 <= j < k ==> ps[j].order != target
    ensures r.None? ==> forall p :: p in ps ==> p.order != target
  {
    if ps == [] then None
    else if ps[0].order == target then Some(ps[0])
    else FindByOrder(ps[1..], target)
  }

  /** Rotation order of the seat right after the big blind. */
  function AfterBigBlind(roster: seq<Player>, button: Player, bigBlind: Player): int
    requires roster != []
  {
    JavaRem(RotationOrder(bigBlind.gamePosition, button.gamePosition, |roster|) + 1, |roster|)
  }

  /** The player who acts first in a new hand: the one seated right after the
      big blind, or the reason there is none. */
  function FirstToAct(roster: seq<Player>, button: Player, bigBlind: Player): (r: Result<Player, SeatError>)
    ensures roster == [] <==> r == Failure(EmptyRoster)
    ensures roster != [] && button !in roster <==> r == Failure(ButtonNotSeated)
    ensures roster != [] && button in roster && bigBlind !in roster <==> r == Failure(BigBlindNotSeated)
    ensures r.Success? ==> && r.value in roster
                           && RotationOrder(r.value.gamePosition, button.gamePosition, |roster|)
                                == AfterBigBlind(roster, button, bigBlind)
    ensures r.Success? ==>
              exists k :: 0 <= k < |roster| && roster[k] == r.value
                          && forall j :: 0 <= j < k ==>
                               RotationOrder(roster[j].gamePosition, button.gamePosition, |roster|)
                                 != AfterBigBlind(roster, button, bigBlind)
    ensures r == Failure(NoSeatAfterBigBlind) ==>
              forall p :: p in roster ==>
                RotationOrder(p.gamePosition, button.gamePosition, |roster|) != AfterBigBlind(roster, button, bigBlind)
  {
    if roster == [] then Failure(EmptyRoster)
    else if button !in roster then Failure(ButtonNotSeated)
    else if bigBlind !in roster then Failure(BigBlindNotSeated)
    else
      var ps := Participants(roster, button);
      match FindByOrder(ps, AfterBigBlind(roster, button, bigBlind))
      case None =>
        assert forall i :: 0 <= i < |roster| ==>
          RotationOrder(roster[i].gamePosition, button.gamePosition, |roster|) == ps[i].order;
        Failure(NoSeatAfterBigBlind)
      case Some(p) => Success(p.player)
  }

  /** The table's seats are numbered 1 to n, one player to a seat. */
  predicate SeatsNumberedFromOne(roster: seq<Player>) {
    && (forall i :: 0 <= i < |roster| ==> 1 <= roster[i].gamePosition <= |roster|)
    && (forall i, j :: 0 <= i < j < |roster| ==> roster[i].gamePosition != roster[j].gamePosition)
  }

  /** Between seats numbered 1 to n, rotation orders run from 0 to n - 1 and
      no two seats share one. */
  lemma NumberedSeatOrders(p: int, q: int, b: int, n: nat)
    requires n > 0 && 1 <= p <= n && 1 <= q <= n && 1 <= b <= n
    ensures 0 <= RotationOrder(p, b, n) < n
    ensures RotationOrder(p, b, n) == RotationOrder(q, b, n) ==> p == q
  {
    RemainderBelowTwice(p - b + n, n);
    RemainderBelowTwice(q - b + n, n);
  }

  lemma RemainderBelowTwice(x: int, n: int)
    requires n > 0 && 0 <= x < 2 * n
    ensures x % n == if x < n then x else x - n
  {
  }

  /** An ascending run of n distinct orders, all in [0, n), is 0, 1, ..., n - 1. */
  lemma {:induction false} OrdersAreIndices(s: seq<Participant>)
    requires Ascending(s) && DistinctOrders(s)
    requires forall i :: 0 <= i < |s| ==> 0 <= s[i].order < |s|
    ensures forall k :: 0 <= k < |s| ==> s[k].order == k
  {
    forall k | 0 <= k < |s| ensures s[k].order == k {
      OrderAtLeastIndex(s, k);
      OrderAtMostIndex(s, k);
    }
  }

  lemma {:induction false} OrderAtLeastIndex(s: seq<Participant>, k: nat)
    requires Ascending(s) && DistinctOrders(s) && k < |s|
    requires forall i :: 0 <= i < |s| ==> 0 <= s[i].order
    ensures s[k].order >= k
    decreases k
  {
    if k > 0 {
      OrderAtLeastIndex(s, k - 1);
    }
  }

  lemma {:induction false} OrderAtMostIndex(s: seq<Participant>, k: nat)
    requires Ascending(s) && DistinctOrders(s) && k < |s|
    requires forall i :: 0 <= i < |s| ==> s[i].order < |s|
    ensures s[k].order <= k
    decreases |s| - k
  {
    if k + 1 < |s| {
      OrderAtMostIndex(s, k + 1);
    } else {
      assert s[k].order < |s|;
    }
  }

  /** With seats numbered 1 to n and the button seated, the rotation orders
      given to the roster are 0 to n - 1, one each. */
  lemma NumberedSeatRotation(roster: seq<Player>, button: Player, ps: seq<Participant>)
    requires |ps| == |roster|
    requires forall i :: 0 <= i < |ps| ==>
               ps[i].order == RotationOrder(roster[i].gamePosition, button.gamePosition, |roster|)
    ensures SeatsNumberedFromOne(roster) && button in roster ==>
              && DistinctOrders(ps)
              && (forall i :: 0 <= i < |ps| ==> 0 <= ps[i].order < |ps|)
  {
    if SeatsNumberedFromOne(roster) && button in roster {
      var n := |roster|;
      var b := button.gamePosition;
      forall i | 0 <= i < n ensures 0 <= ps[i].order < n {
        NumberedSeatOrders(roster[i].gamePosition, roster[i].gamePosition, b, n);
      }
      forall i, j | 0 <= i < j < n ensures ps[i].order != ps[j].order {
        NumberedSeatOrders(roster[i].gamePosition, roster[j].gamePosition, b, n);
      }
    }
  }

  /** Sorting participants whose orders are 0 to n - 1, one each, puts every
      participant at the index of its order. */
  lemma SortPlacesByOrder(ps: seq<Participant>)
    requires DistinctOrders(ps)
    requires forall i :: 0 <= i < |ps| ==> 0 <= ps[i].order < |ps|
    ensures var sorted := SortByRotation(ps);
            && |sorted| == |ps|
            && (forall k :: 0 <= k < |ps| ==> sorted[k].order == k)
            && (forall i :: 0 <= i < |ps| ==> sorted[ps[i].order] == ps[i])
  {
    var sorted := SortByRotation(ps);
    var n := |ps|;
    assert |sorted| == |multiset(sorted)| == |multiset(ps)| == n;
    SortKeepsOrdersDistinct(ps);
    forall i | 0 <= i < n ensures 0 <= sorted[i].order < n {
      assert sorted[i] in multiset(ps);
    }
    OrdersAreIndices(sorted);
    forall i | 0 <= i < n ensures sorted[ps[i].order] == ps[i] {
      assert ps[i] in multiset(sorted);
      var j :| 0 <= j < n && sorted[j] == ps[i];
    }
  }

  /** With seats numbered 1 to n, the sorted participants are exactly the
      rotation: index k holds the player whose rotation order is k, so the
      button comes first. */
  lemma NumberedSeatsSortByRotation(roster: seq<Player>, button: Player)
    requires SeatsNumberedFromOne(roster) && button in roster
    ensures var n := |roster|;
            var sorted := SortByRotation(Participants(roster, button));
            && |sorted| == n
            && (forall k :: 0 <= k < n ==> sorted[k].order == k)
            && (forall i :: 0 <= i < n ==>
                  sorted[RotationOrder(roster[i].gamePosition, button.gamePosition, n)].player == roster[i])
            && sorted[0].player == button
  {
    var n := |roster|;
    var ps := Participants(roster, button);
    var sorted := SortByRotation(ps);
    SortPlacesByOrder(ps);
    forall i | 0 <= i < n
      ensures sorted[RotationOrder(roster[i].gamePosition, button.gamePosition, n)].player == roster[i]
    {
      assert sorted[ps[i].order] == ps[i];
    }
    var ib :| 0 <= ib < n && roster[ib] == button;
    NumberedSeatOrders(button.gamePosition, button.gamePosition, button.gamePosition, n);
    assert ps[ib].order == 0;
  }

  /** When orders are distinct, the search finds the one participant that
      has the order. */
  lemma {:induction false} FindByOrderUnique(ps: seq<Participant>, i: nat)
    requires DistinctOrders(ps) && i < |ps|
    ensures FindByOrder(ps, ps[i].order) == Some(ps[i])
  {
    if i > 0 {
      assert ps[0].order != ps[i].order;
      assert ps[1..][i - 1] == ps[i];
      FindByOrderUnique(ps[1..], i - 1);
    }
  }

  /** With seats numbered 1 to n, the player at the rotation order after the
      big blind is the one who acts first. */
  lemma NumberedSeatsFirstToAct(roster: seq<Player>, button: Player, bigBlind: Player, i: nat)
    requires SeatsNumberedFromOne(roster) && button in roster && bigBlind in roster
    requires i < |roster|
    requires RotationOrder(roster[i].gamePosition, button.gamePosition, |roster|)
               == AfterBigBlind(roster, button, bigBlind)
    ensures FirstToAct(roster, button, bigBlind) == Success(roster[i])
  {
    var ps := Participants(roster, button);
    FindByOrderUnique(ps, i);
  }

  /** With seats numbered 1 to n, every order 0 to n - 1 belongs to a seated
      player, whom the sorted participants hold at that index. */
  lemma SeatWithOrder(roster: seq<Player>, button: Player, k: int) returns (i: nat)
    requires SeatsNumberedFromOne(roster) && button in roster && 0 <= k < |roster|
    ensures i < |roster|
    ensures |SortByRotation(Participants(roster, button))| == |roster|
    ensures RotationOrder(roster[i].gamePosition, button.gamePosition, |roster|) == k
    ensures SortByRotation(Participants(roster, button))[k].player == roster[i]
  {
    var ps := Participants(roster, button);
    var sorted := SortByRotation(ps);
    NumberedSeatsSortByRotation(roster, button);
    assert sorted[k] in multiset(ps);
    i :| 0 <= i < |roster| && ps[i] == sorted[k];
  }

  /** With seats numbered 1 to n, some seated player has the rotation order
      after the big blind, and the sorted participants hold it there. */
  lemma SeatAfterBigBlind(roster: seq<Player>, button: Player, bigBlind: Player) returns (i: nat)
    requires SeatsNumberedFromOne(roster) && button in roster && bigBlind in roster
    ensures i < |roster|
    ensures |SortByRotation(Participants(roster, button))| == |roster|
    ensures 0 <= AfterBigBlind(roster, button, bigBlind) < |roster|
    ensures RotationOrder(roster[i].gamePosition, button.gamePosition, |roster|)
              == AfterBigBlind(roster, button, bigBlind)
              == (RotationOrder(bigBlind.gamePosition, button.gamePosition, |roster|) + 1) % |roster|
    ensures SortByRotation(Participants(roster, button))[AfterBigBlind(roster, button, bigBlind)].player
              == roster[i]
  {
    var n := |roster|;
    NumberedSeatOrders(bigBlind.gamePosition, bigBlind.gamePosition, button.gamePosition, n);
    var bbOrder := RotationOrder(bigBlind.gamePosition, button.gamePosition, n);
    var next := AfterBigBlind(roster, button, bigBlind);
    assert next == JavaRem(bbOrder + 1, n) == (bbOrder + 1) % n by {
      assert bbOrder + 1 >= 0;
    }
    i := SeatWithOrder(roster, button, next);
  }

  /** With seats numbered 1 to n: the sorted participants start with the
      button, hold the big blind at its rotation order, and the player after
      it is the first to act. */
  lemma SeatOrderForNumberedSeats(roster: seq<Player>, button: Player, bigBlind: Player)
    requires SeatsNumberedFromOne(roster) && button in roster && bigBlind in roster
    ensures var n := |roster|;
            var sorted := SortByRotation(Participants(roster, button));
            var bbOrder := RotationOrder(bigBlind.gamePosition, button.gamePosition, n);
            && |sorted| == n
            && sorted[0].player == button
            && 0 <= bbOrder < n && sorted[bbOrder].player == bigBlind
            && FirstToAct(roster, button, bigBlind) == Success(sorted[(bbOrder + 1) % n].player)
  {
    NumberedSeatsSortByRotation(roster, button);
    var ibb :| 0 <= ibb < |roster| && roster[ibb] == bigBlind;
    var i := SeatAfterBigBlind(roster, button, bigBlind);
    NumberedSeatsFirstToAct(roster, button, bigBlind, i);
  }

  /** The seating the hand service test sets up: four players at positions 1
      to 4, the button on position 1 and the big blind on position 3. In it
      the sorted participants start with the button, hold the big blind at
      index 2, and the player at index 3 (position 4) acts first. */
  lemma FixtureSeatOrder(p1: Player, p2: Player, p3: Player, p4: Player)
    requires p1.gamePosition == 1 && p2.gamePosition == 2
    requires p3.gamePosition == 3 && p4.gamePosition == 4
    ensures var sorted := SortByRotation(Participants([p1, p2, p3, p4], p1));
            && |sorted| == 4
            && sorted[0].player == p1
            && sorted[2].player == p3
            && FirstToAct([p1, p2, p3, p4], p1, p3) == Success(sorted[3].player)
            && sorted[3].player == p4
  {
    var roster := [p1, p2, p3, p4];
    assert SeatsNumberedFromOne(roster);
    assert p1 == roster[0] && p3 == roster[2] && p4 == roster[3];
    assert RotationOrder(3, 1, 4) == 2 && RotationOrder(4, 1, 4) == 3;
    var sorted := SortByRotation(Participants(roster, p1));
    NumberedSeatsSortByRotation(roster, p1);
    assert sorted[3].player == p4;
    SeatOrderForNumberedSeats(roster, p1, p3);
  }

  /** Seats 1, 3 and 4 are not numbered 1 to n: with the button on 1 and the
      big blind on 3, the seats on 1 and 4 share the order after the big
      blind, and the player to act is whichever of them the roster lists
      first. */
  lemma GappedSeatsDependOnRosterOrder(p1: Player, p3: Player, p4: Player)
    requires p1.gamePosition == 1 && p3.gamePosition == 3 && p4.gamePosition == 4
    ensures FirstToAct([p1, p3, p4], p1, p3) == Success(p1)
    ensures FirstToAct([p4, p3, p1], p1, p3) == Success(p4)
  {
    assert RotationOrder(3, 1, 3) == 2 && RotationOrder(1, 1, 3) == 0 && RotationOrder(4, 1, 3) == 0;
  }
}

/** The blind schedule held by a game's structure: an ordered table of blind
    levels, the level in force, the length of a level and the time at which
    the level in force runs out (unset until the first hand starts). */
module Blinds {
  import opened Wrappers

  /** A small blind / big blind pair. */
  datatype BlindLevel = BlindLevel(smallBlind: nat, bigBlind: nat)

  const Blind10_20: BlindLevel := BlindLevel(10, 20)
  const Blind15_30: BlindLevel := BlindLevel(15, 30)

  /** The table escalates: every level's big blind is above the one before. */
  predicate Escalating(levels: seq<BlindLevel>) {
    forall i, j :: 0 <= i < j < |levels| ==> levels[i].bigBlind < levels[j].bigBlind
  }

  /** The schedule's state. Time is an integer clock in the units of
      blindLength; endTime None is the null end time of a game whose first hand
      has not started. */
  datatype Schedule = Schedule(levels: seq<BlindLevel>, cursor: nat, blindLength: nat,
                               endTime: Option<int>)

  predicate ValidSchedule(s: Schedule) {
    s.cursor < |s.levels| && s.blindLength > 0
  }

  function Current(s: Schedule): BlindLevel
    requires ValidSchedule(s)
  {
    s.levels[s.cursor]
  }

  /** The level in force has run out: its end time is at or before now. */
  predicate Expired(s: Schedule, now: int) {
    s.endTime.Some? && s.endTime.value <= now
  }

  /** Starts the timer if no hand has started it yet. */
  function EnsureStarted(s: Schedule, now: int): Schedule {
    if s.endTime.None? then s.(endTime := Some(now + s.blindLength)) else s
  }

  /** Moves to the next level of the table (staying on the last one) and
      restarts the timer, if the level in force has run out. */
  function AdvanceIfExpired(s: Schedule, now: int): Schedule
    requires ValidSchedule(s)
  {
    if Expired(s, now) then
      s.(cursor := if s.cursor + 1 < |s.levels| then s.cursor + 1 else s.cursor,
         endTime := Some(now + s.blindLength))
    else s
  }

  /** What starting a hand at time now does to the schedule. */
  function BeginHand(s: Schedule, now: int): (r: Schedule)
    requires ValidSchedule(s)
    ensures ValidSchedule(r) && r.levels == s.levels && r.blindLength == s.blindLength
    // after a hand starts the level in force always runs into the future
    ensures r.endTime.Some? && r.endTime.value > now
    // the first hand of the game starts the timer and keeps the level
    ensures s.endTime.None? ==> Current(r) == Current(s) && r.endTime == Some(now + s.blindLength)
    // a level that has not run out is kept, timer and all
    ensures s.endTime.Some? && !Expired(s, now) ==> r == s
    // a level that has run out gives way to the next one in the table
    ensures Expired(s, now) && s.cursor + 1 < |s.levels| ==> Current(r) == s.levels[s.cursor + 1]
    // ... except on the last level, which stays in force
    ensures Expired(s, now) && s.cursor + 1 == |s.levels| ==> Current(r) == Current(s)
    ensures Expired(s, now) ==> r.endTime == Some(now + s.blindLength)
    // the level moves by exactly one place when it runs out and is not the last
    ensures r.cursor == if Expired(s, now) && s.cursor + 1 < |s.levels| then s.cursor + 1 else s.cursor
  {
    AdvanceIfExpired(EnsureStarted(s, now), now)
  }

  /** On an escalating table a hand never starts at a lower level than the
      one before it, and an expired level that is not the last is replaced by
      a strictly higher one. */
  lemma BeginHandEscalates(s: Schedule, now: int)
    requires ValidSchedule(s) && Escalating(s.levels)
    ensures Current(BeginHand(s, now)).bigBlind >= Current(s).bigBlind
    ensures Expired(s, now) && s.cursor + 1 < |s.levels| ==>
              Current(BeginHand(s, now)).bigBlind > Current(s).bigBlind
  {
  }

  /** The schedule after hands start at each of the given times in turn. */
  function HandsStarted(s: Schedule, times: seq<int>): (r: Schedule)
    requires ValidSchedule(s)
    ensures ValidSchedule(r) && r.levels == s.levels && r.blindLength == s.blindLength
    decreases |times|
  {
    if times == [] then s else HandsStarted(BeginHand(s, times[0]), times[1..])
  }

  /** Over any run of hands the schedule moves forward through the table, at
      most one level per hand, and the last hand's timer ends after it
      started. */
  lemma {:induction false} HandsStartedMoveForward(s: Schedule, times: seq<int>)
    requires ValidSchedule(s)
    ensures s.cursor <= HandsStarted(s, times).cursor <= s.cursor + |times|
    ensures times != [] ==> HandsStarted(s, times).endTime.Some?
                            && HandsStarted(s, times).endTime.value > times[|times| - 1]
    decreases |times|
  {
    if times != [] {
      var next := BeginHand(s, times[0]);
      HandsStartedMoveForward(next, times[1..]);
      if |times| == 1 {
        assert times[1..] == [];
      } else {
        assert times[1..][|times[1..]| - 1] == times[|times| - 1];
      }
    }
  }

  /** The game structure entity: the fields a game's blind schedule keeps,
      updated in place when hands start. */
  class GameStructure {
    var blindLevels: seq<BlindLevel>
    var blindLength: nat
    var levelIndex: nat
    var currentBlindEndTime: Option<int>

    function State(): Schedule
      reads this
    {
      Schedule(blindLevels, levelIndex, blindLength, currentBlindEndTime)
    }

    predicate Valid()
      reads this
    {
      ValidSchedule(State())
    }

    function CurrentBlindLevel(): BlindLevel
      reads this
      requires Valid()
    {
      Current(State())
    }

    /** A structure with the given table, starting on level startIndex, its
        timer not yet started. */
    constructor (levels: seq<BlindLevel>, length: nat, startIndex: nat)
      requires startIndex < |levels| && length > 0
      ensures Valid() && State() == Schedule(levels, startIndex, length, None)
    {
      blindLevels, blindLength, levelIndex, currentBlindEndTime := levels, length, startIndex, None;
    }

    method SetCurrentBlindEndTime(t: Option<int>)
      modifies this
      ensures State() == old(State()).(endTime := t)
    {
      currentBlindEndTime := t;
    }

    /** The blind check a new hand makes at time now: start the timer if it is
        unset, then move on a level if the one in force has run out. */
    method StartHandClock(now: int)
      requires Valid()
      modifies this
      ensures Valid() && State() == BeginHand(old(State()), now)
    {
      if currentBlindEndTime.None? {
        currentBlindEndTime := Some(now + blindLength);
      }
      if currentBlindEndTime.Some? && currentBlindEndTime.value <= now {
        if levelIndex + 1 < |blindLevels| {
          levelIndex := levelIndex + 1;
        }
        currentBlindEndTime := Some(now + blindLength);
      }
    }
  }
}

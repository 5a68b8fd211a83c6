/** The polled keyboard: two 256-entry tables of key states, the current one
    and the one seen at the previous poll. Each poll saves the current table
    and refreshes it from the platform's key query, which is a parameter here. */
module KeyboardTest {

  /** Number of scan codes tracked by both tables. */
  const KeyCount: int := 256

  /** Whether `key` is a scan code the tables have an entry for. */
  predicate InRange(key: int)
  {
    0 <= key < KeyCount
  }

  /** Bounds-checked read of a key table: out-of-range codes read as up. */
  predicate Down(states: seq<bool>, key: int)
  {
    0 <= key < |states| && states[key]
  }

  /** "Just pressed": down in the current table and up in the previous one. */
  predicate JustPressed(states: seq<bool>, lastStates: seq<bool>, key: int)
    requires |lastStates| == |states|
  {
    Down(states, key) && !lastStates[key]
  }

  /** The table a poll reads from the key query `checkKey`. */
  function Sample(checkKey: int -> bool): (s: seq<bool>)
    ensures |s| == KeyCount
    ensures forall i :: 0 <= i < KeyCount ==> s[i] == checkKey(i)
  {
    seq(KeyCount, i => checkKey(i))
  }

  /** Out-of-range scan codes are never down and never just pressed. */
  lemma OutOfRangeIsUp(states: seq<bool>, lastStates: seq<bool>, key: int)
    requires |states| == KeyCount && |lastStates| == KeyCount
    requires !InRange(key)
    ensures !Down(states, key)
    ensures !JustPressed(states, lastStates, key)
  {
  }

  /** A key that was just pressed is down. */
  lemma JustPressedIsDown(states: seq<bool>, lastStates: seq<bool>, key: int)
    requires |lastStates| == |states|
    ensures JustPressed(states, lastStates, key) ==> Down(states, key)
  {
  }

  /** A key that is up before two polls and reported down by both: after the
      first poll it was just pressed, after the second it is held (down, but
      no longer just pressed). */
  lemma {:induction false} HeldAcrossTwoPolls(before: seq<bool>, first: int -> bool,
                                              second: int -> bool, key: int)
    requires |before| == KeyCount && InRange(key)
    requires !before[key] && first(key) && second(key)
    ensures JustPressed(Sample(first), before, key)
    ensures Down(Sample(second), key)
    ensures !JustPressed(Sample(second), Sample(first), key)
  {
    assert Sample(first)[key] && Sample(second)[key];
  }

  class Keyboard {
    var downStates: array<bool>
    var lastDownStates: array<bool>

    /** Both tables have one entry per scan code and are distinct arrays. */
    ghost predicate Valid()
      reads this
    {
      downStates.Length == KeyCount && lastDownStates.Length == KeyCount &&
      downStates != lastDownStates
    }

    /** Both tables start with every key up. */
    constructor ()
      ensures Valid() && fresh(downStates) && fresh(lastDownStates)
      ensures forall i :: 0 <= i < KeyCount ==> !downStates[i] && !lastDownStates[i]
    {
      downStates := new bool[KeyCount](_ => false);
      lastDownStates := new bool[KeyCount](_ => false);
    }

    /** One poll: the previous table becomes a copy of the current one, which
        is then refilled entry by entry from `checkKey`. Neither table is
        replaced or resized. */
    method Poll(checkKey: int -> bool)
      requires Valid()
      modifies downStates, lastDownStates
      ensures Valid()
      ensures downStates == old(downStates) && lastDownStates == old(lastDownStates)
      ensures lastDownStates[..] == old(downStates[..])
      ensures downStates[..] == Sample(checkKey)
    {
      forall i | 0 <= i < lastDownStates.Length {
        lastDownStates[i] := downStates[i];
      }
      assert lastDownStates[..] == old(downStates[..]);
      for i := 0 to downStates.Length
        invariant lastDownStates[..] == old(downStates[..])
        invariant forall j :: 0 <= j < i ==> downStates[j] == checkKey(j)
      {
        downStates[i] := checkKey(i);
      }
    }

    /** Whether `key` is currently held down; false for any code outside the
        table. */
    method IsKeyDown(key: int) returns (b: bool)
      requires Valid()
      ensures !InRange(key) ==> !b
      ensures InRange(key) ==> b == downStates[key]
      ensures b == Down(downStates[..], key)
    {
      b := 0 <= key < downStates.Length && downStates[key];
    }

    /** Whether `key` was pressed since the previous poll: in range, down now
        and up at the previous poll. */
    method GetKeyDown(key: int) returns (b: bool)
      requires Valid()
      ensures b <==> InRange(key) && downStates[key] && !lastDownStates[key]
      ensures b == JustPressed(downStates[..], lastDownStates[..], key)
    {
      b := 0 <= key < downStates.Length && downStates[key] && !lastDownStates[key];
    }
  }

  /** Two polls in a row from a table where `key` is up, with the key held
      through both: the first reports it just pressed, the second only down. */
  method PollTwice(kb: Keyboard, first: int -> bool, second: int -> bool, key: int)
    returns (pressedAfterFirst: bool, pressedAfterSecond: bool, downAfterSecond: bool)
    requires kb.Valid() && InRange(key)
    requires !kb.downStates[key] && first(key) && second(key)
    modifies kb.downStates, kb.lastDownStates
    ensures pressedAfterFirst && !pressedAfterSecond && downAfterSecond
  {
    ghost var before := kb.downStates[..];
    HeldAcrossTwoPolls(before, first, second, key);
    kb.Poll(first);
    pressedAfterFirst := kb.GetKeyDown(key);
    kb.Poll(second);
    pressedAfterSecond := kb.GetKeyDown(key);
    downAfterSecond := kb.IsKeyDown(key);
  }
}

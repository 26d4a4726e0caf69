/** The key set, the keypad layout and the display/keypad surface the states talk to. */
module Interface {
  import opened Wrappers

  const ZERO := 0
  const ONE := 1
  const TWO := 2
  const EIGHT := 8
  const NINE := 9
  const CLEAR := 10
  const ENTER := 11
  const POWER := 12
  const CONFIG := 13
  const PERCENT := 14
  const UNIT := 15
  /** What `read_key` returns when no key arrived before the deadline. */
  const TIMEOUT := -1

  /** A key the keypad can report: the digits and CLEAR..UNIT. */
  predicate IsKey(k: int) { ZERO <= k <= UNIT }

  /** `Key.is_numeric`. */
  function IsNumeric(k: int): (r: bool)
    ensures r <==> k in {0, 1, 2, 3, 4, 5, 6, 7, 8, 9}
    ensures r ==> IsKey(k) && k != TIMEOUT
    ensures k in {TIMEOUT, CLEAR, ENTER, POWER, CONFIG, PERCENT, UNIT} ==> !r
  {
    ZERO <= k <= NINE
  }

  /** The logical keys at the 4x4 physical positions. */
  const KeypadLayout: seq<seq<int>> := [
    [ONE, TWO, 3, POWER],
    [4, 5, 6, CONFIG],
    [7, EIGHT, NINE, PERCENT],
    [CLEAR, ZERO, ENTER, UNIT]
  ]

  function Flatten(rows: seq<seq<int>>): (s: seq<int>)
  {
    if rows == [] then [] else rows[0] + Flatten(rows[1..])
  }

  /** The layout is 4 by 4 and holds every key exactly once: its 16 entries are distinct
    * keys, and every key is among them. */
  lemma KeypadLayoutIsPermutation()
    ensures |KeypadLayout| == 4 && forall r :: 0 <= r < 4 ==> |KeypadLayout[r]| == 4
    ensures |Flatten(KeypadLayout)| == 16
    ensures forall i :: 0 <= i < 16 ==> IsKey(Flatten(KeypadLayout)[i])
    ensures forall i, j :: 0 <= i < j < 16 ==> Flatten(KeypadLayout)[i] != Flatten(KeypadLayout)[j]
    ensures forall k :: IsKey(k) ==> k in Flatten(KeypadLayout)
  {
    var flat := Flatten(KeypadLayout);
    assert Flatten(KeypadLayout[3..]) == [CLEAR, ZERO, ENTER, UNIT];
    assert Flatten(KeypadLayout[2..]) == [7, EIGHT, NINE, PERCENT] + Flatten(KeypadLayout[3..]);
    assert Flatten(KeypadLayout[1..]) == [4, 5, 6, CONFIG] + Flatten(KeypadLayout[2..]);
    assert flat == [1, 2, 3, 12, 4, 5, 6, 13, 7, 8, 9, 14, 10, 0, 11, 15];
  }

  const Rows := 2
  const Columns := 16

  /** The position check `write_text` performs before anything else. */
  predicate InBounds(i: int, j: int) { 0 <= i < Rows && 0 <= j < Columns }

  /** The calls forwarded to the device implementation (LCD driver). */
  datatype Call =
    | TextWritten(text: string, row: int, col: int)
    | CursorBlinking(row: int, col: int)
    | CursorHidden
    | Cleared
    | PoweredOn
    | PoweredOff
    | SleepRequested

  class Interface {
    var displayPower: bool
    /** Everything forwarded to the implementation so far, oldest first. */
    var calls: seq<Call>

    constructor ()
      ensures displayPower && calls == []
    {
      displayPower := true;
      calls := [];
    }

    /** Raises ValueError exactly outside the 2x16 grid, powered or not; forwards only while powered. */
    method WriteText(text: string, i: int, j: int) returns (r: Outcome)
      modifies this
      ensures r == (if InBounds(i, j) then Pass else Fail(ValueError))
      ensures displayPower == old(displayPower)
      ensures calls == if InBounds(i, j) && displayPower then old(calls) + [TextWritten(text, i, j)] else old(calls)
    {
      if i < 0 || j < 0 || i >= Rows || j >= Columns {
        return Fail(ValueError);
      }
      if displayPower {
        calls := calls + [TextWritten(text, i, j)];
      }
      r := Pass;
    }

    method BlinkCursorAt(i: int, j: int)
      modifies this
      ensures displayPower == old(displayPower) && calls == old(calls) + [CursorBlinking(i, j)]
    {
      calls := calls + [CursorBlinking(i, j)];
    }

    method CursorOff()
      modifies this
      ensures displayPower == old(displayPower) && calls == old(calls) + [CursorHidden]
    {
      calls := calls + [CursorHidden];
    }

    /** Turns the cursor off, then clears. */
    method ClearDisplay()
      modifies this
      ensures displayPower == old(displayPower) && calls == old(calls) + [CursorHidden, Cleared]
    {
      CursorOff();
      calls := calls + [Cleared];
    }

    method SetSleep()
      modifies this
      ensures displayPower == old(displayPower) && calls == old(calls) + [SleepRequested]
    {
      calls := calls + [SleepRequested];
    }

    method DisplayOn()
      modifies this
      ensures displayPower && calls == old(calls) + [PoweredOn]
    {
      displayPower := true;
      calls := calls + [PoweredOn];
    }

    method DisplayOff()
      modifies this
      ensures !displayPower && calls == old(calls) + [PoweredOff]
    {
      displayPower := false;
      calls := calls + [PoweredOff];
    }

    method ToggleDisplay()
      modifies this
      ensures displayPower == !old(displayPower)
      ensures calls == old(calls) + [if old(displayPower) then PoweredOff else PoweredOn]
    {
      if displayPower { DisplayOff(); } else { DisplayOn(); }
    }
  }

  /** The key `read_key` reports from position i of a polling trace: the first key polled
    * while the clock reading before the poll was within the deadline, else TIMEOUT.
    * clock[0] is the reading that fixed the deadline; clock[i + 1] is taken before poll i. */
  function FirstKeyFrom(clock: seq<int>, polls: seq<Option<int>>, deadline: int, i: nat): int
    requires |clock| == |polls| + 2 && i <= |polls|
    decreases |polls| - i
  {
    if clock[i + 1] > deadline || i == |polls| then TIMEOUT
    else if polls[i].Some? then polls[i].value
    else FirstKeyFrom(clock, polls, deadline, i + 1)
  }

  /** `Interface.read_key`: polls the implementation until a key arrives or the clock passes
    * `clock[0] + timeout`. The clock readings and poll results are the trace of one call;
    * the trace ends with a reading past the deadline, so the loop ends within it. */
  method ReadKey(clock: seq<int>, polls: seq<Option<int>>, timeout: int) returns (key: int)
    requires |clock| == |polls| + 2
    requires clock[|clock| - 1] > clock[0] + timeout
    ensures key == FirstKeyFrom(clock, polls, clock[0] + timeout, 0)
    ensures key == TIMEOUT || exists i :: 0 <= i < |polls| && polls[i] == Some(key) && clock[i + 1] <= clock[0] + timeout
    ensures key != TIMEOUT ==> exists i :: (0 <= i < |polls| && polls[i] == Some(key) && clock[i + 1] <= clock[0] + timeout
      && forall m :: 0 <= m < i ==> polls[m].None?)
  {
    var endTime := clock[0] + timeout;
    var next: Option<int> := None;
    var n := 0;
    while next.None? && clock[n + 1] <= endTime
      invariant 0 <= n <= |polls|
      invariant forall m :: 0 <= m < n - 1 ==> polls[m].None? && clock[m + 1] <= endTime
      invariant n > 0 ==> clock[n] <= endTime
      invariant next.None? ==> forall m :: 0 <= m < n ==> polls[m].None? && clock[m + 1] <= endTime
      invariant next.None? ==> FirstKeyFrom(clock, polls, endTime, n) == FirstKeyFrom(clock, polls, endTime, 0)
      invariant next.Some? ==> n > 0 && polls[n - 1] == next && FirstKeyFrom(clock, polls, endTime, n - 1) == next.value
      invariant next.Some? ==> FirstKeyFrom(clock, polls, endTime, 0) == next.value
      decreases |polls| - n, if next.None? then 1 else 0
    {
      next := polls[n];
      n := n + 1;
    }
    key := if next.Some? then next.value else TIMEOUT;
  }
}

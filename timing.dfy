/** Per-agent clock record (DPRTimingData.py), with Python 2's integer `/`
    and `%`, which round toward negative infinity. */
module Timing {

  /** Python's `a / b` on integers: the largest q with q * b <= a (b > 0), or
      the mirror bound for a negative divisor. */
  function FloorDiv(a: int, b: int): (q: int)
    requires b != 0
    ensures b > 0 ==> b * q <= a < b * q + b
    ensures b < 0 ==> b * q + b < a <= b * q
  {
    if b > 0 then a / b else (-a) / (-b)
  }

  /** Python's `a % b` on integers: the remainder takes the divisor's sign. */
  function FloorMod(a: int, b: int): (r: int)
    requires b != 0
    ensures b * FloorDiv(a, b) + r == a
    ensures b > 0 ==> 0 <= r < b
    ensures b < 0 ==> b < r <= 0
  {
    a - b * FloorDiv(a, b)
  }

  /** Floor division is the only quotient whose remainder lies in [0, b). */
  lemma FloorDivUnique(a: int, b: int, q: int, r: int)
    requires b > 0 && b * q + r == a && 0 <= r < b
    ensures q == FloorDiv(a, b) && r == FloorMod(a, b)
  {
    var q0 := FloorDiv(a, b);
    if q > q0 {
      assert b * (q0 + 1) == b * q0 + b;
      MulMonotone(b, q0 + 1, q);
    } else if q < q0 {
      assert b * (q + 1) == b * q + b;
      MulMonotone(b, q + 1, q0);
    }
  }

  lemma MulMonotone(b: int, x: int, y: int)
    requires b > 0 && x <= y
    ensures b * x <= b * y
  {
    assert b * y - b * x == b * (y - x);
  }

  datatype TimingData = TimingData(
    opLoopLen: int,
    startOffset: int,
    msgProcessTime: int,
    currOpLoopTime: int,
    currOpCycle: int,
    processingTimeLeft: int)

  /** Global time the clock stands for: whole cycles plus the time into the
      current one. */
  function Phase(t: TimingData): int
  {
    t.currOpCycle * t.opLoopLen + t.currOpLoopTime
  }

  /** `DPRTimingData(op_loop_len, start_offset, msg_process_time)`. A zero
      loop length would raise ZeroDivisionError. */
  function NewTimingData(opLoopLen: int, startOffset: int, msgProcessTime: int): (t: TimingData)
    requires opLoopLen != 0
    ensures t.opLoopLen == opLoopLen && t.startOffset == startOffset
    ensures t.msgProcessTime == msgProcessTime && t.processingTimeLeft == 0
    ensures t.currOpLoopTime == FloorMod(startOffset, opLoopLen)
    ensures t.currOpCycle == FloorDiv(startOffset, opLoopLen)
  {
    TimingData(opLoopLen, startOffset, msgProcessTime,
               FloorMod(startOffset, opLoopLen), FloorDiv(startOffset, opLoopLen), 0)
  }

  /** The initial clock is the start offset split into whole loops and the
      time into the current one: `cycle * loopLen + loopTime == startOffset`,
      with the loop time inside one loop (on the divisor's side of zero); for a
      positive length these are Dafny's `%` and `/`, whatever the offset's sign. */
  lemma InitialClock(opLoopLen: int, startOffset: int, msgProcessTime: int)
    requires opLoopLen != 0
    ensures Phase(NewTimingData(opLoopLen, startOffset, msgProcessTime)) == startOffset
    ensures opLoopLen > 0 ==> 0 <= NewTimingData(opLoopLen, startOffset, msgProcessTime).currOpLoopTime < opLoopLen
    ensures opLoopLen < 0 ==> opLoopLen < NewTimingData(opLoopLen, startOffset, msgProcessTime).currOpLoopTime <= 0
    ensures opLoopLen > 0 ==>
              && NewTimingData(opLoopLen, startOffset, msgProcessTime).currOpLoopTime == startOffset % opLoopLen
              && NewTimingData(opLoopLen, startOffset, msgProcessTime).currOpCycle == startOffset / opLoopLen
  {
  }

  /** The initial loop time and cycle are the only pair that reconstructs the
      start offset with the loop time inside one loop. */
  lemma InitialClockUnique(opLoopLen: int, startOffset: int, msgProcessTime: int, cycle: int, time: int)
    requires opLoopLen > 0
    requires cycle * opLoopLen + time == startOffset && 0 <= time < opLoopLen
    ensures NewTimingData(opLoopLen, startOffset, msgProcessTime).currOpCycle == cycle
    ensures NewTimingData(opLoopLen, startOffset, msgProcessTime).currOpLoopTime == time
  {
    FloorDivUnique(startOffset, opLoopLen, cycle, time);
  }

  /** A loop of 10 started at offset 23 is 3 ticks into its third cycle. */
  lemma InitialClockExample()
    ensures NewTimingData(10, 23, 1).currOpLoopTime == 3
    ensures NewTimingData(10, 23, 1).currOpCycle == 2
  {
    InitialClockUnique(10, 23, 1, 2, 3);
  }
}

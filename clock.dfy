/** What `DPRAgent.tick` does to the agent's clock (DPRAgent.py:103-110), as a
    function on the timing record, and how that clock behaves over many ticks. */
module Clock {
  import opened Timing

  /** The operation loop has run out: this tick handles the buffered packets. */
  predicate Fires(t: TimingData)
  {
    t.currOpLoopTime >= t.opLoopLen
  }

  /** One tick: on firing the loop time is reset to 0 and the cycle counted;
      either way the loop time then advances by one. */
  function AdvanceClock(t: TimingData): (r: TimingData)
    ensures r.opLoopLen == t.opLoopLen && r.startOffset == t.startOffset
    ensures r.msgProcessTime == t.msgProcessTime && r.processingTimeLeft == t.processingTimeLeft
    ensures Fires(t) ==> r.currOpLoopTime == 1 && r.currOpCycle == t.currOpCycle + 1
    ensures !Fires(t) ==> r.currOpLoopTime == t.currOpLoopTime + 1 && r.currOpCycle == t.currOpCycle
  {
    var t' := if Fires(t) then t.(currOpLoopTime := 0, currOpCycle := t.currOpCycle + 1) else t;
    t'.(currOpLoopTime := t'.currOpLoopTime + 1)
  }

  /** The state every clock built with a positive loop length stays in. The
      upper bound is reached: a tick leaves the loop time at `opLoopLen` just
      before the tick that fires. */
  predicate InRange(t: TimingData)
  {
    t.opLoopLen > 0 && 0 <= t.currOpLoopTime <= t.opLoopLen
  }

  /** `n` ticks in a row. */
  function AdvanceN(t: TimingData, n: nat): TimingData
    decreases n
  {
    if n == 0 then t else AdvanceN(AdvanceClock(t), n - 1)
  }

  /** How many of `n` ticks in a row fire. */
  function FiringCount(t: TimingData, n: nat): nat
    decreases n
  {
    if n == 0 then 0 else (if Fires(t) then 1 else 0) + FiringCount(AdvanceClock(t), n - 1)
  }

  /** Within range a tick fires exactly at the end of the loop, stays within
      range, and moves the clock's phase on by exactly one. */
  lemma AdvanceStep(t: TimingData)
    requires InRange(t)
    ensures Fires(t) <==> t.currOpLoopTime == t.opLoopLen
    ensures InRange(AdvanceClock(t))
    ensures Phase(AdvanceClock(t)) == Phase(t) + 1
  {
    if Fires(t) {
      assert (t.currOpCycle + 1) * t.opLoopLen == t.currOpCycle * t.opLoopLen + t.opLoopLen;
    }
  }

  /** The clock counts global ticks: after `n` ticks its phase has grown by `n`. */
  lemma {:induction false} PhaseAfterTicks(t: TimingData, n: nat)
    requires InRange(t)
    ensures InRange(AdvanceN(t, n)) && AdvanceN(t, n).opLoopLen == t.opLoopLen
    ensures Phase(AdvanceN(t, n)) == Phase(t) + n
    decreases n
  {
    if n > 0 {
      AdvanceStep(t);
      PhaseAfterTicks(AdvanceClock(t), n - 1);
    }
  }

  /** A freshly built clock with a positive loop length is within range, and
      after `n` ticks its phase is the start offset plus `n`. */
  lemma PhaseFromStart(opLoopLen: int, startOffset: int, msgProcessTime: int, n: nat)
    requires opLoopLen > 0
    ensures InRange(NewTimingData(opLoopLen, startOffset, msgProcessTime))
    ensures Phase(AdvanceN(NewTimingData(opLoopLen, startOffset, msgProcessTime), n)) == startOffset + n
  {
    InitialClock(opLoopLen, startOffset, msgProcessTime);
    PhaseAfterTicks(NewTimingData(opLoopLen, startOffset, msgProcessTime), n);
  }

  /** From loop time `l`, the next `opLoopLen - l` ticks do not fire and count
      the loop time up to `opLoopLen`; the tick after them fires. */
  lemma {:induction false} TicksUntilFire(t: TimingData, j: nat)
    requires InRange(t) && j <= t.opLoopLen - t.currOpLoopTime
    ensures AdvanceN(t, j).currOpLoopTime == t.currOpLoopTime + j
    ensures AdvanceN(t, j).currOpCycle == t.currOpCycle
    ensures AdvanceN(t, j).opLoopLen == t.opLoopLen
    ensures FiringCount(t, j) == 0
    ensures Fires(AdvanceN(t, j)) <==> j == t.opLoopLen - t.currOpLoopTime
    decreases j
  {
    if j > 0 {
      AdvanceStep(t);
      TicksUntilFire(AdvanceClock(t), j - 1);
    }
  }

  /** A firing clock fires again exactly `opLoopLen` ticks later, and not in
      between. */
  lemma FiringPeriod(t: TimingData)
    requires InRange(t) && Fires(t)
    ensures FiringCount(t, t.opLoopLen) == 1
    ensures Fires(AdvanceN(t, t.opLoopLen))
  {
    AdvanceStep(t);
    TicksUntilFire(AdvanceClock(t), t.opLoopLen - 1);
  }

  /** A loop of 10 started at offset 23: the first 7 ticks bring the loop time
      from 3 up to 10 without firing; the 8th fires, leaving loop time 1 in
      cycle 3. */
  lemma ClockExample()
    ensures FiringCount(NewTimingData(10, 23, 1), 7) == 0
    ensures AdvanceN(NewTimingData(10, 23, 1), 7).currOpLoopTime == 10
    ensures FiringCount(NewTimingData(10, 23, 1), 8) == 1
    ensures AdvanceN(NewTimingData(10, 23, 1), 8).currOpLoopTime == 1
    ensures AdvanceN(NewTimingData(10, 23, 1), 8).currOpCycle == 3
  {
    var t := NewTimingData(10, 23, 1);
    InitialClockExample();
    TicksUntilFire(t, 7);
    AdvanceAfter(t, 7);
    AdvanceStep(AdvanceN(t, 7));
  }

  /** Tick `n + 1` is one more tick after the first `n`. */
  lemma {:induction false} AdvanceAfter(t: TimingData, n: nat)
    ensures AdvanceN(t, n + 1) == AdvanceClock(AdvanceN(t, n))
    ensures FiringCount(t, n + 1) == FiringCount(t, n) + (if Fires(AdvanceN(t, n)) then 1 else 0)
    decreases n
  {
    if n > 0 {
      AdvanceAfter(AdvanceClock(t), n - 1);
    }
  }

  /** A loop length of at most 1 (zero is refused at construction, negative
      ones are not): once the clock fires it fires on every later tick, since a
      firing tick leaves loop time 1. */
  lemma {:induction false} AlwaysFires(t: TimingData, n: nat)
    requires t.opLoopLen <= 1 && Fires(t)
    ensures Fires(AdvanceN(t, n)) && FiringCount(t, n) == n
    decreases n
  {
    if n > 0 {
      AlwaysFires(AdvanceClock(t), n - 1);
    }
  }

  /** A clock built with a negative loop length fires on every tick. */
  lemma NegativeLengthFires(opLoopLen: int, startOffset: int, msgProcessTime: int, n: nat)
    requires opLoopLen < 0
    ensures FiringCount(NewTimingData(opLoopLen, startOffset, msgProcessTime), n) == n
  {
    InitialClock(opLoopLen, startOffset, msgProcessTime);
    AlwaysFires(NewTimingData(opLoopLen, startOffset, msgProcessTime), n);
  }
}

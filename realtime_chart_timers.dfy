/** The two intervals of the effect in apps/web/src/app/modules/dashboard/realtime/hooks/useRealtimeCharts.ts,
    as a schedule of due times. `generateNewDataPoint` depends on `lineChartData`,
    `updateLineChartData` on `generateNewDataPoint`, and the effect on `updateLineChartData`; so every
    line update re-runs the effect, which clears both intervals and starts them again. The schedule as
    written is set beside the intended one, where a line update leaves the intervals running. Times
    are whole milliseconds since mount. */
module RealtimeChartTimers {

  /** Which interval callback runs. */
  datatype Tick = LineTick | BarTick

  /** The next due time of the line interval and of the bar interval. */
  datatype Timers = Timers(lineDue: nat, barDue: nat)

  /** The effect run at time `t`: a line update every `interval`, a bar update every twice that. */
  function StartIntervals(t: nat, interval: nat): (r: Timers)
    ensures r.lineDue == t + interval && r.barDue == r.lineDue + interval
  {
    Timers(t + interval, t + 2 * interval)
  }

  /** The callback due first; on a tie the line interval, which was created first. */
  function NextTick(ts: Timers): Tick {
    if ts.lineDue <= ts.barDue then LineTick else BarTick
  }

  /** As written: a line update changes `lineChartData`, so the effect's clean-up clears both
      intervals and the effect starts them again at that time. */
  function StepAsWritten(ts: Timers, interval: nat): Timers {
    if NextTick(ts) == LineTick then StartIntervals(ts.lineDue, interval)
    else ts.(barDue := ts.barDue + 2 * interval)
  }

  /** As intended: each interval keeps its own period. */
  function StepIntended(ts: Timers, interval: nat): Timers {
    if NextTick(ts) == LineTick then ts.(lineDue := ts.lineDue + interval)
    else ts.(barDue := ts.barDue + 2 * interval)
  }

  /** The first `n` callbacks of the schedule as written. */
  function TicksAsWritten(ts: Timers, interval: nat, n: nat): (r: seq<Tick>)
    ensures |r| == n
    decreases n
  {
    if n == 0 then [] else [NextTick(ts)] + TicksAsWritten(StepAsWritten(ts, interval), interval, n - 1)
  }

  /** The first `n` callbacks of the intended schedule. */
  function TicksIntended(ts: Timers, interval: nat, n: nat): (r: seq<Tick>)
    ensures |r| == n
    decreases n
  {
    if n == 0 then [] else [NextTick(ts)] + TicksIntended(StepIntended(ts, interval), interval, n - 1)
  }

  /** As written, from mount on, every callback that runs is a line update: the bar interval is
      always cleared before it is due, whatever the interval. */
  lemma {:induction false} BarNeverFiresAsWritten(t: nat, interval: nat, n: nat)
    ensures forall i :: 0 <= i < n ==> TicksAsWritten(StartIntervals(t, interval), interval, n)[i] == LineTick
    decreases n
  {
    if n > 0 {
      var ts := StartIntervals(t, interval);
      assert StepAsWritten(ts, interval) == StartIntervals(t + interval, interval);
      BarNeverFiresAsWritten(t + interval, interval, n - 1);
    }
  }

  /** The bar due time is one interval after, at, or one interval before the line due time. */
  predicate InPhase(ts: Timers, interval: nat) {
    ts.barDue == ts.lineDue + interval || ts.barDue == ts.lineDue || ts.barDue + interval == ts.lineDue
  }

  lemma {:induction false} StepIntendedInPhase(ts: Timers, interval: nat)
    requires interval > 0 && InPhase(ts, interval)
    ensures InPhase(StepIntended(ts, interval), interval)
  {
  }

  /** A bar update among the three callbacks from position `i`. */
  predicate BarAmongThree(r: seq<Tick>, i: nat)
    requires i + 3 <= |r|
  {
    r[i] == BarTick || r[i + 1] == BarTick || r[i + 2] == BarTick
  }

  /** From a state in phase, one of the next three callbacks is a bar update. */
  lemma {:induction false} BarWithinThree(ts: Timers, interval: nat, n: nat)
    requires interval > 0 && InPhase(ts, interval) && n >= 3
    ensures BarAmongThree(TicksIntended(ts, interval, n), 0)
  {
    var t1 := StepIntended(ts, interval);
    var t2 := StepIntended(t1, interval);
    var r := TicksIntended(ts, interval, n);
    assert r[0] == NextTick(ts);
    assert r[1..] == TicksIntended(t1, interval, n - 1);
    assert r[1] == NextTick(t1);
    assert r[2..] == TicksIntended(t2, interval, n - 2);
    assert r[2] == NextTick(t2);
    if ts.barDue == ts.lineDue + interval {
      assert r[2] == BarTick;
    } else if ts.barDue == ts.lineDue {
      assert r[1] == BarTick;
    } else {
      assert r[0] == BarTick;
    }
  }

  lemma {:induction false} BarEveryThreeFrom(ts: Timers, interval: nat, n: nat)
    requires interval > 0 && InPhase(ts, interval)
    ensures forall i :: 0 <= i && i + 3 <= n ==> BarAmongThree(TicksIntended(ts, interval, n), i)
    decreases n
  {
    if n >= 3 {
      var r := TicksIntended(ts, interval, n);
      var next := StepIntended(ts, interval);
      BarWithinThree(ts, interval, n);
      StepIntendedInPhase(ts, interval);
      BarEveryThreeFrom(next, interval, n - 1);
      forall i | 1 <= i && i + 3 <= n
        ensures BarAmongThree(r, i)
      {
        assert r[1..] == TicksIntended(next, interval, n - 1);
        assert BarAmongThree(r[1..], i - 1);
      }
    }
  }

  /** As intended, from mount on, any three callbacks in a row include a bar update, and the third
      callback after mount is the first of them. */
  lemma {:induction false} BarEveryThreeTicksIntended(t: nat, interval: nat, n: nat)
    requires interval > 0
    ensures var r := TicksIntended(StartIntervals(t, interval), interval, n);
      forall i :: 0 <= i && i + 3 <= n ==> BarAmongThree(r, i)
    ensures n >= 3 ==> TicksIntended(StartIntervals(t, interval), interval, n)[..3] == [LineTick, LineTick, BarTick]
  {
    var ts := StartIntervals(t, interval);
    BarEveryThreeFrom(ts, interval, n);
    if n >= 3 {
      var t1 := StepIntended(ts, interval);
      var t2 := StepIntended(t1, interval);
      var r := TicksIntended(ts, interval, n);
      assert r[1..] == TicksIntended(t1, interval, n - 1);
      assert r[2..] == TicksIntended(t2, interval, n - 2);
      assert r[0] == LineTick && r[1] == LineTick && r[2] == BarTick;
    }
  }
}

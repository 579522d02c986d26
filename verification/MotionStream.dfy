/** The stopped window against the stream of reports it summarises. */
module MotionStream {
  import opened Domain
  import opened Protocol
  import opened Runs
  import opened Invariant
  import opened Effects
  import opened Reservation
  import opened Fields

  /** A report that shows a stop and can extend or start a window. */
  predicate ShowsStop(report: MotionReport, now: int) {
    report.wellFormed && report.sequence != 0 && Dated(report, now) && report.Stopped()
  }

  /** The report continues the window `m` describes: same source, next sequence number, a later
      observation at most 500 ms after the last, and no clock jump. */
  predicate Extends(m: Motion, report: MotionReport, now: int, jumped: bool) {
    && m.stopped && !ClockJump(m, jumped) && ShowsStop(report, now) && Continues(m, report)
    && m.at < report.observedAt.value <= m.at + MOTION_MAX_AGE
  }

  /** A stopped window after a report is the old one, extended, or a new one that starts at this
      report. Anything else (gap, repeat, reorder, other source, invalid, late or moving report,
      clock jump) leaves no window that began earlier. */
  lemma MotionWindowStep(m: Motion, report: MotionReport, now: int, jumped: bool)
    requires m.stopped ==> m.at != 0
    ensures var t := MotionAfter(m, report, now, jumped);
            && (t.stopped ==> ShowsStop(report, now) && t.at == report.observedAt.value && t.at != 0
                              && t.source == report.source && t.sequence == report.sequence)
            && (t.stopped && !Extends(m, report, now, jumped) ==> t.since == report.observedAt.value)
            && (Extends(m, report, now, jumped) ==> t.stopped && t.since == m.since)
  {}

  /** The reports at events `w` form the window of state `n`: one source, consecutive numbers,
      observation times that increase by at most 500 ms, every one a stop, the first at `since`,
      the last at `at`, and no other report or reset since the first. */
  ghost predicate WindowOf(run: Run, n: nat, w: seq<nat>)
    requires IsRun(run) && n <= |run.events|
  {
    var m := run.states[n].motion;
    && |w| > 0
    && (forall j | 0 <= j < |w| :: StopAt(run, n, w[j], m.source))
    && (forall j | 0 < j < |w| :: Successive(run, n, w[j - 1], w[j]))
    && StopAt(run, n, w[0], m.source) && Observation(run.events[w[0]]) == m.since
    && StopAt(run, n, w[|w| - 1], m.source) && Observation(run.events[w[|w| - 1]]) == m.at
    && run.events[w[|w| - 1]].report.sequence == m.sequence
    && (forall k | w[0] <= k < n && (run.events[k].MotionEvent? || run.events[k].ResetMotionEvent?) :: k in w)
  }

  predicate StopEvent(e: Event) {
    e.MotionEvent? && ShowsStop(e.report, e.now)
  }

  function Observation(e: Event): int
    requires StopEvent(e)
  {
    e.report.observedAt.value
  }

  ghost predicate StopAt(run: Run, n: nat, k: nat, source: string)
    requires IsRun(run) && n <= |run.events|
  {
    k < n && StopEvent(run.events[k]) && run.events[k].report.source == source
  }

  ghost predicate Successive(run: Run, n: nat, j: nat, k: nat)
    requires IsRun(run) && n <= |run.events|
  {
    && j < k < n && StopEvent(run.events[j]) && StopEvent(run.events[k])
    && run.events[k].report.sequence == run.events[j].report.sequence + 1
    && Observation(run.events[j]) < Observation(run.events[k]) <= Observation(run.events[j]) + MOTION_MAX_AGE
  }

  lemma QuietMotion(st: State, e: Event)
    requires !e.MotionEvent? && Step(st, e).motion.stopped
    ensures !e.ResetMotionEvent? && Step(st, e).motion == st.motion
  {
    hide Step;
    MotionStep(st, e);
  }

  lemma {:induction false} AtKnown(run: Run, n: nat)
    requires IsRun(run) && n <= |run.events| && run.states[n].motion.stopped
    ensures run.states[n].motion.at != 0
    decreases n
  {
    hide Step, Allowed, Inv, MotionAfter;
    if n == 0 {
      StartUntouched(run);
      assert false;
    }
    StepOf(run, n - 1);
    var st, e := run.states[n - 1], run.events[n - 1];
    if e.MotionEvent? {
      MotionStep(st, e);
      if st.motion.stopped {
        AtKnown(run, n - 1);
      }
      MotionWindowStep(st.motion, e.report, e.now, e.jumped);
    } else {
      QuietMotion(st, e);
      AtKnown(run, n - 1);
    }
  }

  /** Every stopped window is backed by an unbroken log of stop reports. */
  lemma {:induction false} StoppedWindowHasLog(run: Run, n: nat) returns (w: seq<nat>)
    requires IsRun(run) && n <= |run.events| && run.states[n].motion.stopped
    ensures WindowOf(run, n, w)
    decreases n
  {
    hide Step, Allowed, Inv, MotionAfter, ShowsStop, Extends;
    if n == 0 {
      StartUntouched(run);
      assert false;
    }
    StepOf(run, n - 1);
    var st, e := run.states[n - 1], run.events[n - 1];
    if !e.MotionEvent? {
      QuietMotion(st, e);
      w := StoppedWindowHasLog(run, n - 1);
      WindowAfterOther(run, n, w);
    } else {
      MotionStep(st, e);
      if st.motion.stopped {
        AtKnown(run, n - 1);
      }
      MotionWindowStep(st.motion, e.report, e.now, e.jumped);
      if Extends(st.motion, e.report, e.now, e.jumped) {
        assert st.motion.stopped by { ExtendsWhat(st.motion, e.report, e.now, e.jumped); }
        var v := StoppedWindowHasLog(run, n - 1);
        w := v + [n - 1];
        WindowExtended(run, n, v);
      } else {
        w := [n - 1];
      }
    }
  }

  lemma ExtendsWhat(m: Motion, report: MotionReport, now: int, jumped: bool)
    requires Extends(m, report, now, jumped)
    ensures m.stopped && report.source == m.source && report.sequence == m.sequence + 1 && ShowsStop(report, now)
    ensures m.at < report.observedAt.value <= m.at + MOTION_MAX_AGE
  {}

  lemma WindowAfterOther(run: Run, n: nat, w: seq<nat>)
    requires IsRun(run) && 0 < n <= |run.events| && WindowOf(run, n - 1, w)
    requires run.states[n].motion == run.states[n - 1].motion
    requires !run.events[n - 1].MotionEvent? && !run.events[n - 1].ResetMotionEvent?
    ensures WindowOf(run, n, w)
  {
    hide Step, ShowsStop;
    forall j | 0 < j < |w|
      ensures Successive(run, n, w[j - 1], w[j])
    {
      assert Successive(run, n - 1, w[j - 1], w[j]);
    }
    forall j | 0 <= j < |w|
      ensures StopAt(run, n, w[j], run.states[n].motion.source)
    {
      assert StopAt(run, n - 1, w[j], run.states[n].motion.source);
    }
  }

  lemma WindowExtended(run: Run, n: nat, v: seq<nat>)
    requires IsRun(run) && 0 < n <= |run.events| && WindowOf(run, n - 1, v)
    requires run.events[n - 1].MotionEvent?
    requires var m, e := run.states[n - 1].motion, run.events[n - 1];
             Extends(m, e.report, e.now, e.jumped)
    requires var m, t, r := run.states[n - 1].motion, run.states[n].motion, run.events[n - 1].report;
             t.since == m.since && t.at == r.observedAt.value && t.source == r.source && t.sequence == r.sequence
    ensures WindowOf(run, n, v + [n - 1])
  {
    hide Step, ShowsStop, Extends;
    var e, w := run.events[n - 1], v + [n - 1];
    ExtendsWhat(run.states[n - 1].motion, e.report, e.now, e.jumped);
    forall j | 0 < j < |w|
      ensures Successive(run, n, w[j - 1], w[j])
    {
      if j < |v| {
        assert Successive(run, n - 1, v[j - 1], v[j]);
      }
    }
    forall j | 0 <= j < |w|
      ensures StopAt(run, n, w[j], run.states[n].motion.source)
    {
      if j < |v| {
        assert StopAt(run, n - 1, v[j], run.states[n - 1].motion.source);
      }
    }
  }

  // ----- Which reports are accepted, and what they change -----

  /** The report follows the last one of its source, and no clock jump was noticed since. */
  predicate Follows(m: Motion, report: MotionReport, jumped: bool) {
    report.source == m.source && report.sequence == m.sequence + 1 && !(m.lastCheck != 0 && jumped)
  }

  /** The report is well formed, complete, no repeat, at most 500 ms old, and newer than the one it follows. */
  predicate Accepts(m: Motion, report: MotionReport, now: int, jumped: bool) {
    && report.wellFormed && report.sequence > 0 && (report.source == m.source ==> report.sequence > m.sequence)
    && report.Complete()
    && var at := report.observedAt.value;
    && at != 0 && at <= now <= at + 500 * MILLISECOND
    && (m.at != 0 && Follows(m, report, jumped) ==> m.at < at)
  }

  /** Reports decide the window: it is dated exactly by an accepted report, and then says whether that
      report showed a stop. */
  lemma AcceptedExactly(m: Motion, report: MotionReport, now: int, jumped: bool)
    ensures var t := MotionAfter(m, report, now, jumped);
            && (t.at != 0 <==> Accepts(m, report, now, jumped))
            && (t.at != 0 ==> t.at == report.observedAt.value && t.stopped == report.Stopped())
            && (t.at == 0 ==> !t.stopped)
            && t.lastCheck == now && t.enabled == m.enabled
            && (var heard := report.wellFormed && report.sequence > 0
                             && (report.source == m.source ==> report.sequence > m.sequence);
                t.source == (if heard then report.source else m.source)
                && t.sequence == if heard then report.sequence else m.sequence)
  {}

  /** Evidence is dropped exactly by an accepted report that starts a window or turns it round. */
  lemma TurnsExactly(m: Motion, report: MotionReport, now: int, jumped: bool)
    ensures MotionTurns(m, report, now, jumped) <==>
              && Accepts(m, report, now, jumped)
              && (m.at == 0 || !Follows(m, report, jumped) || m.stopped != report.Stopped())
  {}

  /** A change of the vehicle drops evidence exactly when it enters, leaves or moves between states in
      which the vehicle may drive, without a fresh stop. */
  lemma ShiftExactly(from: Vehicle, to: Vehicle)
    ensures VehicleShift(from, to) <==> from != to && (MayDrive(from) || MayDrive(to))
  {}

  lemma FreshStopExactly(m: Motion, now: int, jumped: bool)
    ensures StoppedMotionFresh(m, now, jumped) <==>
              && m.enabled && m.stopped && m.since != 0 && m.at <= now <= m.at + 500 * MILLISECOND
              && !(m.lastCheck != 0 && jumped)
    ensures Checked(m, jumped) == if m.lastCheck != 0 && jumped then m.(at := 0, since := 0, stopped := false) else m
  {}

  // ----- Movement over runs -----

  /** Reports, resets, and vehicle changes that notice a clock jump. */
  predicate TouchesMotion(e: Event) {
    e.MotionEvent? || e.ResetMotionEvent? || (e.SetVehicleEvent? && e.jumped)
  }

  /** At event `p` a report of movement was accepted, and until state `n` nothing touched the window. */
  ghost predicate MovingSince(run: Run, p: nat, n: nat)
    requires IsRun(run) && n <= |run.events|
  {
    && p < n && run.events[p].MotionEvent? && run.states[p + 1].motion.at != 0
    && run.events[p].report.Complete() && !run.events[p].report.Stopped()
    && forall k | p < k < n :: !TouchesMotion(run.events[k])
  }

  lemma UntouchedMotion(st: State, e: Event)
    requires !TouchesMotion(e)
    ensures Step(st, e).motion == st.motion
  {
    hide Step;
    MotionStep(st, e);
  }

  /** The accepted report's time is the window's, and the window does not say stopped. */
  lemma {:induction false} MovementKept(run: Run, p: nat, n: nat)
    requires IsRun(run) && n <= |run.events| && MovingSince(run, p, n)
    ensures var m := run.states[n].motion;
            m.at != 0 && !m.stopped && m.at == run.events[p].report.observedAt.value
    decreases n
  {
    hide Step, Allowed, Inv, MotionAfter;
    StepOf(run, n - 1);
    var st, e := run.states[n - 1], run.events[n - 1];
    if n == p + 1 {
      MotionStep(st, e);
      AcceptedExactly(st.motion, e.report, e.now, e.jumped);
    } else {
      MovementKept(run, p, n - 1);
      UntouchedMotion(st, e);
    }
  }

  /** A dated window that does not say stopped comes from an accepted report of movement, the last one. */
  lemma {:induction false} MovementSource(run: Run, n: nat) returns (p: nat)
    requires IsRun(run) && n <= |run.events| && run.states[n].motion.at != 0 && !run.states[n].motion.stopped
    ensures p < n && run.events[p].MotionEvent? && run.states[p + 1].motion.at != 0
    ensures run.events[p].report.Complete() && !run.events[p].report.Stopped()
    ensures run.events[p].report.observedAt.value == run.states[n].motion.at
    ensures forall k | p < k < n :: !run.events[k].MotionEvent? && !run.events[k].ResetMotionEvent?
    decreases n
  {
    hide Step, Allowed, Inv, MotionAfter;
    if n == 0 {
      StartUntouched(run);
      assert false;
    }
    StepOf(run, n - 1);
    var st, e := run.states[n - 1], run.events[n - 1];
    MotionStep(st, e);
    if e.MotionEvent? {
      AcceptedExactly(st.motion, e.report, e.now, e.jumped);
      p := n - 1;
    } else {
      p := MovementSource(run, n - 1);
    }
  }
}

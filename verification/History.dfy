/** A slot's sample window over whole runs: it is the pruned log of the samples taken since the
    window was last emptied, and those samples are in order of time. */
module History {
  import opened Domain
  import opened Protocol
  import opened Runs
  import opened Invariant
  import opened Effects
  import opened Reservation
  import opened Pairing
  import opened Window

  // ----- What a step does to a window -----

  /** A frame of reader `j` empties the window of slot `i`: a lost supply empties both, another
      serial its own and in sampling both, an unusable frame its own. */
  predicate FrameEmpties(st: State, j: Index, data: Frame, now: int, i: Index) {
    var s := st.slots.At(j);
    || Releases(s, data, now)
    || (SerialSwap(s, data) && (st.sampling.enabled || i == j))
    || (i == j && !Read(s, data, now).valid)
  }

  /** The delivery is sound and waits for its partner's. */
  predicate AwaitsPartner(noted: State, j: Index, a: Acquisition)
    requires noted.sampling.round.Some?
  {
    && Sound(noted, j, a) && MayRun(noted.slots.At(1 - j))
    && noted.sampling.round.value.samples.At(1 - j).complete == 0
  }

  /** The delivery is late, unsound, mismatched or needs no partner, so no round remains. */
  predicate CancelsRound(noted: State, j: Index, id: nat, a: Acquisition) {
    PairedMode(noted) &&
    (Belongs(noted, j, id) ==>
       && noted.sampling.round.value.samples.At(j).complete == 0
       && !PairsUp(noted, j, id, a) && !AwaitsPartner(noted, j, a))
  }

  /** The delivery finishes a pair. */
  predicate PairsUp(noted: State, j: Index, id: nat, a: Acquisition) {
    Concludes(noted, j, id, a) && MayRun(noted.slots.At(1 - j))
  }

  /** The event empties the window of slot `i`. */
  ghost predicate Empties(st: State, e: Event, i: Index) {
    match e
    case SetRoleEvent(_, _) => true
    case OffEvent(_, _) => true
    case TagEvent(j, _) => st.sampling.enabled || i == j
    case FailEvent(j) => st.sampling.enabled || i == j
    case AbsentEvent(j, _) => st.sampling.enabled || i == j
    case StopSamplingEvent => st.sampling.enabled
    case SetSeatboxEvent(_) => SeatboxMoves(st, e)
    case CorrectiveOffEvent(j, now) => CorrectiveOff(st, j, now)
    case RequestOnEvent(j, now, maxDelta, jumped) =>
      var r := Verdict(st, j, now, maxDelta, jumped);
      r.Admitted? || r.Requalified?
    case MotionEvent(report, now, jumped) => MotionTurns(st.motion, report, now, jumped)
    case SetVehicleEvent(v, now, jumped) => VehicleShift(st.vehicle, v) && !StoppedMotionFresh(st.motion, now, jumped)
    case BeginRoundEvent(now) => st.sampling.enabled && st.sampling.round.Some? && !OpenRound(st, now)
    case ObserveEvent(j, data, now) => FrameEmpties(st, j, data, now, i)
    case AcquireEvent(j, id, a) =>
      FrameEmpties(st, j, a.data, a.complete, i) || CancelsRound(Noted(st, j, id, a), j, id, a)
    case _ => false
  }

  /** The sample the event adds to the window of slot `i`: a pair's own half in paired mode, and
      otherwise every usable frame of the slot. */
  function Gains(st: State, e: Event, i: Index): Option<Sample> {
    match e
    case ObserveEvent(j, data, now) =>
      if i == j && !PairedMode(st) && Read(st.slots.At(j), data, now).valid then Some(Sample(data, now)) else None
    case AcquireEvent(j, id, a) =>
      var noted := Noted(st, j, id, a);
      if !PairedMode(st) then
        if i == j && Read(st.slots.At(j), a.data, a.complete).valid then Some(Sample(a.data, a.complete)) else None
      else if PairsUp(noted, j, id, a) then
        var own := Stored(noted.sampling.round.value, j, a).samples.At(i);
        Some(Sample(own.data, own.start))
      else None
    case _ => None
  }

  function Extended(h: seq<Sample>, gain: Option<Sample>): seq<Sample> {
    if gain.Some? then Appended(h, gain.value) else h
  }

  ghost predicate WindowIs(st: State, e: Event, i: Index, h: seq<Sample>) {
    h == Extended(if Empties(st, e, i) then [] else st.slots.At(i).history, Gains(st, e, i))
  }

  lemma FrameWindow(st: State, j: Index, data: Frame, now: int, i: Index)
    ensures var s, t := st.slots.At(i), ObserveFrame(st, j, data, now).slots.At(i);
            var logs := i == j && !PairedMode(st) && Read(s, data, now).valid;
            t.history == Extended(if FrameEmpties(st, j, data, now, i) then [] else s.history,
                                  if logs then Some(Sample(data, now)) else None)
  {
    hide Settled, EpisodeAfter, Releases, ShowsOn, ShowsOff, Appended, SerialSwap;
    ReadWindow(st.slots.At(j), data, now);
    if i == 0 {} else {}
  }

  lemma ReadWindow(s: Slot, data: Frame, now: int)
    ensures Read(s, data, now).history == if SerialSwap(s, data) || !Read(s, data, now).valid then [] else s.history
  {}

  lemma NotedWindow(st: State, j: Index, id: nat, a: Acquisition, i: Index)
    ensures Noted(st, j, id, a).slots.At(i).history == ObserveFrame(st, j, a.data, a.complete).slots.At(i).history
  {
    hide ObserveFrame;
  }

  /** What filing a noted delivery does to a window. */
  lemma FiledWindow(st: State, j: Index, id: nat, a: Acquisition, i: Index)
    ensures var noted, t := Noted(st, j, id, a), ObserveAcquisition(st, j, id, a);
            && (CancelsRound(noted, j, id, a) ==> t.slots.At(i).history == [])
            && (PairsUp(noted, j, id, a) ==>
                  var own := Stored(noted.sampling.round.value, j, a).samples.At(i);
                  && t.slots.At(i).history == Appended(noted.slots.At(i).history, Sample(own.data, own.start))
                  && t.sampling.round.None?)
            && (!CancelsRound(noted, j, id, a) && !PairsUp(noted, j, id, a) ==>
                  t.slots.At(i).history == noted.slots.At(i).history)
  {
    hide Noted, Sound, MayRun, Pairs, WithPair, Wipe;
    var noted := Noted(st, j, id, a);
    WipeSlot(noted, true, noted.sampling.enabled, i);
    if noted.sampling.round.Some? {
      PairWindow(noted, Stored(noted.sampling.round.value, j, a), i);
    }
  }

  lemma PairWindow(st: State, r: Round, i: Index)
    ensures WithPair(st, r).slots.At(i).history
            == Appended(st.slots.At(i).history, Sample(r.samples.At(i).data, r.samples.At(i).start))
    ensures WithPair(st, r).sampling.round.None?
  {
    hide Appended;
    if i == 0 {} else {}
  }

  lemma AcquireWindow(st: State, j: Index, id: nat, a: Acquisition, i: Index)
    ensures WindowIs(st, AcquireEvent(j, id, a), i, ObserveAcquisition(st, j, id, a).slots.At(i).history)
  {
    hide Noted, Appended, FrameEmpties, CancelsRound, PairsUp, ObserveAcquisition, ObserveFrame, Read;
    NotedMode(st, j, id, a);
    NotedWindow(st, j, id, a, i);
    FrameWindow(st, j, a.data, a.complete, i);
    FiledWindow(st, j, id, a, i);
    FiledModes(Noted(st, j, id, a), j, id, a);
  }

  lemma FiledModes(noted: State, j: Index, id: nat, a: Acquisition)
    ensures CancelsRound(noted, j, id, a) ==> PairedMode(noted) && !PairsUp(noted, j, id, a)
    ensures PairsUp(noted, j, id, a) ==> PairedMode(noted)
  {
    hide Sound, MayRun, Completes;
  }

  lemma RequestWindow(st: State, j: Index, now: int, maxDelta: nat, jumped: bool, i: Index)
    ensures WindowIs(st, RequestOnEvent(j, now, maxDelta, jumped), i,
                     RequestOn(st, j, now, maxDelta, jumped).slots.At(i).history)
  {
    hide Decide, Reconcile, Enact;
    ReconcileSlots(st, now, maxDelta);
    EnactWindow(Reconcile(st, now, maxDelta), j, now, Verdict(st, j, now, maxDelta, jumped), i);
  }

  lemma EnactWindow(st: State, j: Index, now: int, reason: Reason, i: Index)
    ensures Enact(st, j, now, reason).slots.At(i).history
            == if reason.Admitted? || reason.Requalified? then [] else st.slots.At(i).history
  {
    hide Wipe, Switched;
    var drop := reason.Requalified? || reason.Admitted?;
    var base := Wipe(st, drop, drop);
    WipeSlot(st, drop, drop, i);
    PutSlot(base, j, Switched(base.slots.At(j), now, reason), i);
    SwitchedWindow(base.slots.At(j), now, reason);
  }

  lemma SwitchedWindow(s: Slot, now: int, reason: Reason)
    ensures Switched(s, now, reason).history == s.history
  {}

  lemma CommandWindow(st: State, e: Event, i: Index)
    requires e.OffEvent? || e.CorrectiveOffEvent? || e.SetRoleEvent?
    ensures WindowIs(st, e, i, Step(st, e).slots.At(i).history)
  {
    hide CorrectiveOff, Wipe;
    WipeSlot(st, true, true, i);
  }

  lemma PutWindow(st: State, j: Index, s: Slot, i: Index)
    requires s.history == []
    ensures var c := Wipe(st, true, st.sampling.enabled).Put(j, s);
            c.slots.At(i).history == if st.sampling.enabled || i == j then [] else st.slots.At(i).history
  {
    hide Wipe;
    WipeSlot(st, true, st.sampling.enabled, i);
  }

  lemma IdentityWindow(st: State, e: Event, i: Index)
    requires e.TagEvent? || e.FailEvent? || e.AbsentEvent?
    ensures WindowIs(st, e, i, Step(st, e).slots.At(i).history)
  {
    hide NonDriving, Wipe, Retagged, Gone, Failed;
    var s, parked := Wipe(st, true, st.sampling.enabled).slots.At(e.slot), NonDriving(st.vehicle);
    ForgottenWindow(s, e, parked);
    match e
    case TagEvent(j, uid) => PutWindow(st, j, Retagged(s, uid, parked), i);
    case FailEvent(j) => PutWindow(st, j, Failed(s), i);
    case AbsentEvent(j, now) => PutWindow(st, j, Gone(s, now, parked), i);
  }

  lemma ForgottenWindow(s: Slot, e: Event, parked: bool)
    ensures e.TagEvent? ==> Retagged(s, e.uid, parked).history == []
    ensures e.AbsentEvent? ==> Gone(s, e.now, parked).history == []
    ensures Failed(s).history == []
  {}

  lemma SeatboxWindow(st: State, e: Event, i: Index)
    requires e.SetSeatboxEvent?
    ensures WindowIs(st, e, i, Step(st, e).slots.At(i).history)
  {
    hide Wipe;
    if i == 0 {} else {}
  }

  /** A round's own operations; only an overdue round empties a window. */
  lemma RoundWindow(st: State, e: Event, i: Index)
    requires e.BeginRoundEvent? || e.ClaimRoundEvent? || e.StopSamplingEvent? || e.ShouldIsolateEvent?
    ensures WindowIs(st, e, i, Step(st, e).slots.At(i).history)
  {
    hide Opens, OpenRound, Claims, Wipe, Reconcile;
    match e
    case BeginRoundEvent(now) =>
      var drop := !OpenRound(st, now) && st.sampling.round.Some?;
      WipeSlot(st, drop, drop && st.sampling.enabled, i);
    case StopSamplingEvent =>
      WipeSlot(st.(sampling := st.sampling.(stopped := true)), true, st.sampling.enabled, i);
    case ShouldIsolateEvent(_, now, maxDelta) => ReconcileSlots(st, now, maxDelta);
    case _ =>
  }

  lemma MotionWindow(st: State, e: Event, i: Index)
    requires e.SetVehicleEvent? || e.MotionEvent? || e.ResetMotionEvent?
    ensures WindowIs(st, e, i, Step(st, e).slots.At(i).history)
  {
    hide MotionAfter, MotionTurns, StoppedMotionFresh, VehicleShift, Checked, Wipe;
    match e
    case SetVehicleEvent(v, now, jumped) =>
      var drop := VehicleShift(st.vehicle, v) && !StoppedMotionFresh(st.motion, now, jumped);
      WipeSlot(st, drop, drop, i);
    case MotionEvent(report, now, jumped) =>
      var turns := MotionTurns(st.motion, report, now, jumped);
      WipeSlot(st, turns, turns, i);
    case _ =>
  }

  /** Every step empties a window, keeps it, and adds at most one sample, as stated. */
  lemma WindowStep(st: State, e: Event, i: Index)
    ensures WindowIs(st, e, i, Step(st, e).slots.At(i).history)
  {
    hide WindowIs, RequestOn, ObserveAcquisition;
    match e
    case RequestOnEvent(j, now, maxDelta, jumped) => RequestWindow(st, j, now, maxDelta, jumped, i);
    case ObserveEvent(j, data, now) => ObserveWindow(st, j, data, now, i);
    case AcquireEvent(j, id, a) => AcquireWindow(st, j, id, a, i);
    case SetRoleEvent(_, _) => CommandWindow(st, e, i);
    case OffEvent(_, _) => CommandWindow(st, e, i);
    case CorrectiveOffEvent(_, _) => CommandWindow(st, e, i);
    case TagEvent(_, _) => IdentityWindow(st, e, i);
    case FailEvent(_) => IdentityWindow(st, e, i);
    case AbsentEvent(_, _) => IdentityWindow(st, e, i);
    case SetSeatboxEvent(_) => SeatboxWindow(st, e, i);
    case SetVehicleEvent(_, _, _) => MotionWindow(st, e, i);
    case MotionEvent(_, _, _) => MotionWindow(st, e, i);
    case ResetMotionEvent => MotionWindow(st, e, i);
    case _ => RoundWindow(st, e, i);
  }

  lemma ObserveWindow(st: State, j: Index, data: Frame, now: int, i: Index)
    ensures WindowIs(st, ObserveEvent(j, data, now), i, Step(st, ObserveEvent(j, data, now)).slots.At(i).history)
  {
    hide ObserveFrame, FrameEmpties, Read, Appended;
    FrameWindow(st, j, data, now, i);
  }

  // ----- The log of a run -----

  /** The samples taken for slot `i` since its window was last emptied. */
  ghost function Log(run: Run, n: nat, i: Index): seq<Sample>
    requires IsRun(run) && n <= |run.events|
  {
    if n == 0 then []
    else
      var st, e := run.states[n - 1], run.events[n - 1];
      var kept := if Empties(st, e, i) then [] else Log(run, n - 1, i);
      if Gains(st, e, i).Some? then kept + [Gains(st, e, i).value] else kept
  }

  lemma FoldedNext(log: seq<Sample>, x: Sample)
    ensures Folded(log + [x]) == Appended(Folded(log), x)
  {
    hide Appended;
    assert (log + [x])[..|log|] == log;
  }

  /** In every run a slot's window is its log, pruned. */
  lemma {:induction false} HistoryIsPrunedLog(run: Run, n: nat, i: Index)
    requires IsRun(run) && n <= |run.events|
    ensures run.states[n].slots.At(i).history == Folded(Log(run, n, i))
    decreases n
  {
    hide Step, Allowed, Inv, Empties, Gains, Appended, Folded;
    if n == 0 {
      StartUntouched(run);
      assert Folded([]) == [] by { FoldedEmpty(); }
    } else {
      HistoryIsPrunedLog(run, n - 1, i);
      StepOf(run, n - 1);
      var st, e := run.states[n - 1], run.events[n - 1];
      WindowStep(st, e, i);
      FoldedEmpty();
      if Gains(st, e, i).Some? {
        FoldedNext(if Empties(st, e, i) then [] else Log(run, n - 1, i), Gains(st, e, i).value);
      }
    }
  }

  lemma FoldedEmpty()
    ensures Folded([]) == []
  {}

  // ----- The log is in order of time -----

  /** Where a gained sample comes from: the reading itself, outside paired mode and with no round
      open, or a timely sample of the open round, which the gain ends. */
  lemma GainSource(st: State, e: Event, i: Index)
    requires Inv(st) && Gains(st, e, i).Some?
    ensures e.ObserveEvent? || e.AcquireEvent?
    ensures var x := Gains(st, e, i).value;
            || (!PairedMode(st) && Reads(e, i) && x.at == ReadTime(e))
            || (&& PairedMode(st) && e.AcquireEvent? && st.sampling.round.Some?
                && Step(st, e).sampling.round.None?
                && var r := st.sampling.round.value;
                var own := Stored(r, e.slot, e.sample).samples.At(i);
                x.at == own.start && r.openedAt <= own.start <= own.complete && own.complete != 0)
  {
    hide Inv, Noted, Read, Step;
    if e.AcquireEvent? && PairedMode(st) {
      PairGain(st, e.slot, e.id, e.sample, i);
      StepIsAcquire(st, e);
    }
  }

  lemma PairGain(st: State, j: Index, id: nat, a: Acquisition, i: Index)
    requires Inv(st) && PairsUp(Noted(st, j, id, a), j, id, a)
    ensures var noted := Noted(st, j, id, a);
            && st.sampling.round.Some? && noted.sampling.round == st.sampling.round
            && ObserveAcquisition(st, j, id, a).sampling.round.None?
            && var r := st.sampling.round.value;
            var own := Stored(r, j, a).samples.At(i);
            r.openedAt <= own.start <= own.complete && own.complete != 0
  {
    hide Inv, Noted, MayRun, Pairs, RestKept, SlotInv, EpisodeInv, PairInv, ObserveAcquisition;
    NotedKept(st, j, id, a);
    InvParts(st, i);
    FiledWindow(st, j, id, a, i);
    if i == 0 {} else {}
  }

  /** The round kept by a step: none, the same opening, or a new one at this event. */
  lemma RoundAfter(run: Run, k: nat, i: Index)
    requires IsRun(run) && k < |run.events| && run.states[k + 1].sampling.round.Some?
    ensures var r, e := run.states[k + 1].sampling.round.value, run.events[k];
            || (e.BeginRoundEvent? && r.openedAt == e.now && r.samples.At(i).complete == 0)
            || (&& run.states[k].sampling.round.Some?
                && var was := run.states[k].sampling.round.value;
                && r.openedAt == was.openedAt
                && (r.samples.At(i) == was.samples.At(i) || (e.AcquireEvent? && r.samples.At(i) == e.sample)))
  {
    hide Step, Opens, Timely, RestKept, MakesPair;
    OutcomeAt(run, k);
    PairEndsRound(run.states[k], run.states[k + 1], run.events[k]);
  }

  function LastAt(log: seq<Sample>): int
    requires log != []
  {
    log[|log| - 1].at
  }

  lemma ClockedAt(run: Run, k: nat, m: nat)
    requires IsRun(run) && Clocked(run) && k <= m < |run.events|
    requires Clock(run.events[k]).Some? && Clock(run.events[m]).Some?
    ensures Clock(run.events[k]).value <= Clock(run.events[m]).value
  {
    hide Step;
  }

  /** No logged sample, and no stored one, is later than an event still to come. */
  lemma {:induction false} LogBefore(run: Run, n: nat, m: nat, i: Index)
    requires IsRun(run) && Clocked(run) && n <= m < |run.events| && Clock(run.events[m]).Some?
    ensures Log(run, n, i) != [] ==> LastAt(Log(run, n, i)) <= Clock(run.events[m]).value
    ensures var round := run.states[n].sampling.round;
            round.Some? && round.value.samples.At(i).complete != 0 ==>
              round.value.samples.At(i).complete <= Clock(run.events[m]).value
    decreases n
  {
    hide Step, Allowed, Inv, Empties, Gains, Clocked;
    if n == 0 {
      StartUntouched(run);
    } else {
      LogBefore(run, n - 1, m, i);
      StepOf(run, n - 1);
      var st, e := run.states[n - 1], run.events[n - 1];
      if Gains(st, e, i).Some? {
        GainSource(st, e, i);
        ClockedAt(run, n - 1, m);
      }
      if run.states[n].sampling.round.Some? {
        RoundAfter(run, n - 1, i);
        if e.AcquireEvent? {
          ClockedAt(run, n - 1, m);
        }
      }
    }
  }

  lemma OrderedNext(log: seq<Sample>, x: Sample)
    requires Ordered(log) && (log != [] ==> LastAt(log) <= x.at)
    ensures Ordered(log + [x])
  {}

  /** With a clock that never runs backwards the log is in order, and no sample of it is later
      than the opening of the round in progress. */
  lemma {:induction false} LogOrdered(run: Run, n: nat, i: Index)
    requires IsRun(run) && Clocked(run) && n <= |run.events|
    ensures Ordered(Log(run, n, i))
    ensures run.states[n].sampling.round.Some? && Log(run, n, i) != [] ==>
              LastAt(Log(run, n, i)) <= run.states[n].sampling.round.value.openedAt
    decreases n
  {
    hide Step, Allowed, Inv, Empties, Gains, Clocked, Ordered;
    if n == 0 {
      OrderedEmpty();
    } else {
      LogOrdered(run, n - 1, i);
      OrderedEmpty();
      StepOf(run, n - 1);
      var st, e := run.states[n - 1], run.events[n - 1];
      if Gains(st, e, i).Some? {
        GainSource(st, e, i);
        LogBefore(run, n - 1, n - 1, i);
        OrderedNext(if Empties(st, e, i) then [] else Log(run, n - 1, i), Gains(st, e, i).value);
        RoundNeedsPairs(run, n - 1);
      } else if run.states[n].sampling.round.Some? {
        RoundAfter(run, n - 1, i);
        if e.BeginRoundEvent? {
          LogBefore(run, n - 1, n - 1, i);
        }
      }
    }
  }

  lemma OrderedEmpty()
    ensures Ordered([])
  {}

  /** Outside paired mode a reading leaves no round open. */
  lemma RoundNeedsPairs(run: Run, k: nat)
    requires IsRun(run) && k < |run.events| && (run.events[k].ObserveEvent? || run.events[k].AcquireEvent?)
    ensures !PairedMode(run.states[k]) ==> run.states[k + 1].sampling.round.None?
  {
    hide Step, Allowed, Inv, SlotInv, EpisodeInv, RoundInv, Opens;
    StepOf(run, k);
    ConfigStep(run.states[k], run.events[k]);
    ReachableInv(run, k + 1);
    InvParts(run.states[k + 1], 0);
  }

  /** The sliding window over runs: with a clock that never runs backwards a slot's window is the
      shortest suffix of its log since the last gap that passes the length and span test of
      `stable`, or all of it when none does, so pruning never changes that test. */
  lemma HistoryRefinesLog(run: Run, n: nat, i: Index)
    requires IsRun(run) && Clocked(run) && n <= |run.events|
    ensures var h, log := run.states[n].slots.At(i).history, Log(run, n, i);
            && Ordered(log) && IsWindow(h, SinceGap(log))
            && (LongEnough(h) <==> LongEnough(SinceGap(log)))
  {
    hide Step, Log, Ordered, IsWindow, SinceGap, LongEnough, Folded;
    HistoryIsPrunedLog(run, n, i);
    LogOrdered(run, n, i);
    WindowRefinesLog(Log(run, n, i));
    WindowDecidesAsLog(Log(run, n, i));
  }
}

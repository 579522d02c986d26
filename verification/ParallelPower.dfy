/** Adding a second supply: the safety theorem of the coordinator, and the evidence it rests on. */
module ParallelPower {
  import opened Domain
  import opened Protocol
  import opened Runs
  import opened Invariant
  import opened Effects
  import opened Decisions
  import opened Reservation
  import opened Pairing
  import opened Fields
  import Decided
  import opened MotionStream

  // ----- What a grant beside a running peer has established -----

  lemma JoinRequired(st: State, i: Index, now: int, maxDelta: nat, jumped: bool)
    requires Inv(st) && st.slots.At(1 - i).held && PeerObjection(st, i, now, maxDelta, jumped).None?
    ensures JoinObjection(st, i, now, maxDelta, jumped).None?
  {
    hide Inv, JoinObjection, SelectionObjection;
    InvParts(st, 1 - i);
  }

  lemma JoinFacts(st: State, i: Index, now: int, maxDelta: nat, jumped: bool)
    requires JoinObjection(st, i, now, maxDelta, jumped).None?
    ensures var s, peer := st.slots.At(i), st.slots.At(1 - i);
            && peer.active && !peer.offPending && !peer.Depleted()
            && SecondPackStationary(st, now, jumped)
            && (st.sampling.enabled ==> Paired(st, now))
            && (maxDelta > 0 ==> Gap(st) <= maxDelta)
            && (st.conservative ==> s.Stable(now) && peer.Stable(now)
                                    && (maxDelta > 0 ==> WindowsAgree(s.history, peer.history, StrictLimit(maxDelta))))
  {
    hide SecondPackStationary, Paired, WindowsAgree, Distance, NonDriving;
  }

  /** The event grants slot `i` more than maintenance while its peer may be supplying power: a new
      reservation, a requalification, or the repetition of an unconfirmed ON. */
  ghost predicate GrantBeside(run: Run, n: nat, i: Index)
    requires IsRun(run) && n < |run.events|
  {
    var e := run.events[n];
    && GrantAt(run, n, i) && run.states[n].slots.At(1 - i).held
    && !Verdict(run.states[n], i, e.now, e.maxDelta, e.jumped).Maintenance()
  }

  /** A request that turns slot `i` from not held to held beside a held peer is such a grant. */
  lemma ReservationIsGrantBeside(run: Run, n: nat, i: Index)
    requires IsRun(run) && n < |run.events| && run.events[n].RequestOnEvent?
    requires !run.states[n].slots.At(i).held && run.states[n + 1].slots.At(i).held
    requires run.states[n].slots.At(1 - i).held
    ensures GrantBeside(run, n, i)
  {
    hide Step, Allowed, Inv, Decide, Reconcile, Settled, CorrectiveOff, KeepsHandover, Qualified;
    var st, e := run.states[n], run.events[n];
    StepOf(run, n);
    SlotStep(st, e, i);
    ReconcileSlots(st, e.now, e.maxDelta);
    GrantKinds(Reconcile(st, e.now, e.maxDelta), i, e.now, e.maxDelta, e.jumped);
  }

  lemma GrantBesideQualified(st: State, i: Index, now: int, maxDelta: nat, jumped: bool)
    requires Inv(st) && st.slots.At(1 - i).held
    requires Verdict(st, i, now, maxDelta, jumped).Granted() && !Verdict(st, i, now, maxDelta, jumped).Maintenance()
    ensures NonDriving(st.vehicle)
    ensures JoinObjection(Reconcile(st, now, maxDelta), i, now, maxDelta, jumped).None?
  {
    hide Inv, Decide, Reconcile, PeerObjection, JoinObjection, NonDriving;
    var c := Reconcile(st, now, maxDelta);
    ReconcileSlots(st, now, maxDelta);
    KeepReconcile(st, now, maxDelta);
    GrantKinds(c, i, now, maxDelta, jumped);
    JoinRequired(c, i, now, maxDelta, jumped);
  }

  /** The frames compared at event `n` come from one pair of samples, at most ten seconds old. */
  ghost predicate ComparedPair(run: Run, m: nat, n: nat, p: Origin, a: Acquisition, q: Origin, b: Acquisition)
    requires IsRun(run) && n < |run.events| && run.events[n].RequestOnEvent?
  {
    && PairFrom(run, m, n, p, a, q, b)
    && run.states[n].slots.first.frame == a.data && run.states[n].slots.second.frame == b.data
    && run.events[n].now - Min(a.start, b.start) <= MAX_AGE
    && (run.events[n].maxDelta > 0 ==> Distance(a.data.voltage, b.data.voltage) <= run.events[n].maxDelta)
  }

  /** Parallel-power safety: with sampling on, a slot is granted ON beside a possibly live peer,
      other than to keep it running, only in a known non-drive state, beside a confirmed peer with
      no OFF pending, on voltages measured by both readers in one round that each claimed once,
      within a second of each other, at most ten seconds ago, and within the limit when there is one. */
  lemma ParallelPowerSafe(run: Run, n: nat, i: Index)
    requires IsRun(run) && n < |run.events| && run.states[n].sampling.enabled && GrantBeside(run, n, i)
    ensures !MayDrive(run.states[n].vehicle)
    ensures run.states[n].slots.At(1 - i).active && !run.states[n].slots.At(1 - i).offPending
    ensures exists p, a, q, b :: ComparedPair(run, 0, n, p, a, q, b)
  {
    hide Step, Allowed, Inv, Verdict, Reconcile, JoinObjection, NonDriving, PairFrom, WindowsAgree;
    var st, e := run.states[n], run.events[n];
    StepOf(run, n);
    GrantBesideQualified(st, i, e.now, e.maxDelta, e.jumped);
    NonDrivingExactly(st.vehicle);
    ReconcileSlots(st, e.now, e.maxDelta);
    JoinFacts(Reconcile(st, e.now, e.maxDelta), i, e.now, e.maxDelta, e.jumped);
    InvParts(st, i);
    StartBlank(run);
    var p, a, q, b := PairDelivered(run, 0, n);
    PairShowsFrames(run, 0, n, p, a, q, b);
    assert ComparedPair(run, 0, n, p, a, q, b);
  }

  lemma PairShowsFrames(run: Run, m: nat, n: nat, p: Origin, a: Acquisition, q: Origin, b: Acquisition)
    requires IsRun(run) && n <= |run.events| && PairFrom(run, m, n, p, a, q, b)
    ensures var st := run.states[n];
            && st.sampling.pairedAt == Min(a.start, b.start)
            && (st.slots.first.observedRound == st.sampling.pairedId ==> st.slots.first.frame == a.data)
            && (st.slots.second.observedRound == st.sampling.pairedId ==> st.slots.second.frame == b.data)
  {
    hide Step, AcquiredBy;
  }

  // ----- The evidence barrier -----

  /** Events after which earlier measurements no longer count. */
  ghost predicate Invalidates(st: State, e: Event) {
    match e
    case SetRoleEvent(_, _) => true
    case TagEvent(_, _) => true
    case FailEvent(_) => true
    case AbsentEvent(_, _) => true
    case OffEvent(_, _) => true
    case StopSamplingEvent => true
    case SetSeatboxEvent(_) => SeatboxMoves(st, e)
    case CorrectiveOffEvent(i, now) => CorrectiveOff(st, i, now)
    case RequestOnEvent(i, now, maxDelta, jumped) =>
      var r := Verdict(st, i, now, maxDelta, jumped);
      r.Admitted? || r.Requalified?
    case ObserveEvent(i, data, now) => SerialSwap(st.slots.At(i), data) || Releases(st.slots.At(i), data, now)
    case AcquireEvent(i, _, a) => SerialSwap(st.slots.At(i), a.data) || Releases(st.slots.At(i), a.data, a.complete)
    case MotionEvent(report, now, jumped) => MotionTurns(st.motion, report, now, jumped)
    case SetVehicleEvent(v, now, jumped) => VehicleShift(st.vehicle, v) && !StoppedMotionFresh(st.motion, now, jumped)
    case _ => false
  }

  lemma FrameBlanks(st: State, i: Index, data: Frame, now: int)
    requires PairedMode(st)
    requires SerialSwap(st.slots.At(i), data) || Releases(st.slots.At(i), data, now)
    ensures Blank(ObserveFrame(st, i, data, now))
  {
    hide Settled, EpisodeAfter, ShowsOn, ShowsOff, Appended;
    if SerialSwap(st.slots.At(i), data) {
      SwapClears(st.slots.At(i), data, now);
    }
    if i == 0 {} else {}
  }

  lemma SwapClears(s: Slot, data: Frame, now: int)
    requires SerialSwap(s, data)
    ensures Read(s, data, now).history == []
  {}

  lemma AcquireBlanks(st: State, i: Index, id: nat, a: Acquisition)
    requires PairedMode(st)
    requires SerialSwap(st.slots.At(i), a.data) || Releases(st.slots.At(i), a.data, a.complete)
    ensures Blank(ObserveAcquisition(st, i, id, a))
  {
    hide ObserveFrame, Deliver, SerialSwap, Releases;
    FrameBlanks(st, i, a.data, a.complete);
    FrameSurroundings(st, i, a.data, a.complete);
    if i == 0 {} else {}
  }

  lemma RequestBlanks(st: State, i: Index, now: int, maxDelta: nat, jumped: bool)
    requires var r := Verdict(st, i, now, maxDelta, jumped);
             r.Admitted? || r.Requalified?
    ensures Blank(RequestOn(st, i, now, maxDelta, jumped))
  {
    hide Decide, Selected, Dropped;
    if i == 0 {} else {}
  }

  /** With sampling on, an invalidating event leaves no round, no pair and no sample. */
  lemma InvalidatesBlanks(st: State, e: Event)
    requires Invalidates(st, e) && st.sampling.enabled && PairedMode(Step(st, e))
    ensures Blank(Step(st, e))
  {
    hide RequestOn, ObserveFrame, ObserveAcquisition, Verdict, Reconcile, CorrectiveOff, SerialSwap, Releases,
         MotionTurns, MotionAfter, VehicleShift, StoppedMotionFresh, Checked, NonDriving, BeginRound, ClaimRound;
    match e
    case RequestOnEvent(i, now, maxDelta, jumped) => RequestBlanks(st, i, now, maxDelta, jumped);
    case ObserveEvent(i, data, now) =>
      FrameSurroundings(st, i, data, now);
      FrameBlanks(st, i, data, now);
    case AcquireEvent(i, id, a) =>
      AcquireSurroundings(st, i, id, a);
      AcquireBlanks(st, i, id, a);
    case _ =>
  }

  /** A sample of reader `i` from a round opened at event `since` or later. */
  ghost predicate SampledSince(run: Run, since: nat, n: nat, i: Index, x: Sample)
    requires IsRun(run) && n <= |run.events|
  {
    exists q, id, a :: SampleFrom(run, since, n, i, q, id, a, x)
  }

  ghost predicate PairedSince(run: Run, since: nat, n: nat)
    requires IsRun(run) && n <= |run.events|
  {
    exists p, a, q, b :: PairFrom(run, since, n, p, a, q, b)
  }

  /** Paired mode without a round, a pair or a sample. */
  predicate Barren(st: State) {
    PairedMode(st) && Blank(st)
  }

  /** An invalidating event leads there when both readers are coordinated and sampling is on. */
  lemma InvalidatedIsBarren(run: Run, m: nat)
    requires IsRun(run) && m < |run.events|
    requires Invalidates(run.states[m], run.events[m]) && PairedMode(run.states[m + 1])
    ensures Barren(run.states[m + 1])
  {
    hide Step, Allowed, Inv, Invalidates, Opens;
    StepOf(run, m);
    ConfigStep(run.states[m], run.events[m]);
    InvalidatesBlanks(run.states[m], run.events[m]);
  }

  lemma SampledSinceBarren(run: Run, m: nat, n: nat, i: Index, x: Sample)
    requires IsRun(run) && m <= n <= |run.events| && Barren(run.states[m]) && x in run.states[n].slots.At(i).history
    ensures SampledSince(run, m, n, i, x)
  {
    hide Step, SampleFrom;
    var q, id, a := SampleOrigin(run, m, n, i, x);
  }

  /** Evidence barrier: in paired mode, after an invalidating event every window sample and any
      pair come from rounds opened later. */
  lemma EvidenceBarrier(run: Run, m: nat, n: nat)
    requires IsRun(run) && m < n <= |run.events|
    requires Invalidates(run.states[m], run.events[m]) && PairedMode(run.states[m + 1])
    ensures forall i: Index, x | x in run.states[n].slots.At(i).history :: SampledSince(run, m + 1, n, i, x)
    ensures run.states[n].sampling.pairedId != 0 ==> PairedSince(run, m + 1, n)
  {
    hide Step, Invalidates, SampledSince, PairFrom;
    InvalidatedIsBarren(run, m);
    forall i: Index, x | x in run.states[n].slots.At(i).history
      ensures SampledSince(run, m + 1, n, i, x)
    {
      SampledSinceBarren(run, m + 1, n, i, x);
    }
    if run.states[n].sampling.pairedId != 0 {
      var p, a, q, b := PairDelivered(run, m + 1, n);
    }
  }

  /** With a clock that never runs backwards, such samples were acquired at or after that event. */
  lemma SampledInTime(run: Run, m: nat, n: nat, i: Index, x: Sample)
    requires IsRun(run) && Clocked(run) && m < n <= |run.events| && SampledSince(run, m + 1, n, i, x)
    requires Clock(run.events[m]).Some?
    ensures x.at >= Clock(run.events[m]).value
  {
    hide Step, Opens, Claims;
    var q, id, a :| SampleFrom(run, m + 1, n, i, q, id, a, x);
    assert Clock(run.events[q.open]) == Some(run.events[q.open].now);
  }

  /** A conservative grant beside a running peer rests, for both packs, on at least three low-load
      samples over at least six seconds, and every two voltages of the two windows are within the
      tightened limit when there is one. Every sample comes from a round opened after any point of
      paired mode without evidence: the start, or any earlier invalidating event. */
  lemma ConservativeGrantEvidence(run: Run, n: nat, i: Index)
    requires IsRun(run) && n < |run.events| && GrantBeside(run, n, i) && run.states[n].conservative
    ensures forall j: Index ::
              run.states[n].slots.At(j).Stable(run.events[n].now) && LongEnough(run.states[n].slots.At(j).history)
    ensures var st, limit := run.states[n], run.events[n].maxDelta;
            limit > 0 ==> WindowsAgree(st.slots.At(i).history, st.slots.At(1 - i).history, StrictLimit(limit))
    ensures forall m: nat, j: Index, x | m <= n && Barren(run.states[m]) && x in run.states[n].slots.At(j).history ::
              SampledSince(run, m, n, j, x)
  {
    hide Step, Allowed, Inv, Verdict, Reconcile, JoinObjection, NonDriving, Barren, SampledSince, WindowsAgree;
    var st, e := run.states[n], run.events[n];
    StepOf(run, n);
    GrantBesideQualified(st, i, e.now, e.maxDelta, e.jumped);
    ReconcileSlots(st, e.now, e.maxDelta);
    JoinFacts(Reconcile(st, e.now, e.maxDelta), i, e.now, e.maxDelta, e.jumped);
    forall m: nat, j: Index, x | m <= n && Barren(run.states[m]) && x in st.slots.At(j).history
      ensures SampledSince(run, m, n, j, x)
    {
      SampledSinceBarren(run, m, n, j, x);
    }
  }

  // ----- A moving vehicle -----

  /** No slot joins a possibly live peer while the last word on motion is an accepted report of movement
      observed at most half a second ago. */
  lemma MovingNeverJoins(run: Run, p: nat, n: nat, i: Index)
    requires IsRun(run) && n < |run.events| && run.events[n].RequestOnEvent? && MovingSince(run, p, n)
    requires var at := run.events[p].report.observedAt.value;
             at <= run.events[n].now <= at + 500 * MILLISECOND
    ensures !GrantBeside(run, n, i)
  {
    hide Step, Allowed, Inv, Verdict, Reconcile, JoinObjection, MovingSince, NonDriving;
    var st, e := run.states[n], run.events[n];
    StepOf(run, n);
    MovementKept(run, p, n);
    if GrantBeside(run, n, i) {
      GrantBesideQualified(st, i, e.now, e.maxDelta, e.jumped);
      ReconcileSlots(st, e.now, e.maxDelta);
      NonDrivingExactly(st.vehicle);
      Decided.JoinsExactly(Reconcile(st, e.now, e.maxDelta), i, e.now, e.maxDelta, e.jumped);
      assert false;
    }
  }

  /** A request denied for want of a stationary vehicle was denied because of such a report. */
  lemma StationaryDenialIsMovement(run: Run, n: nat, i: Index, now: int, maxDelta: nat, jumped: bool) returns (p: nat)
    requires IsRun(run) && n <= |run.events|
    requires Verdict(run.states[n], i, now, maxDelta, jumped).WaitingForStationary?
    ensures p < n && run.events[p].MotionEvent? && run.states[p + 1].motion.at != 0
    ensures run.events[p].report.Complete() && !run.events[p].report.Stopped()
    ensures run.events[p].report.observedAt.value <= now <= run.events[p].report.observedAt.value + 500 * MILLISECOND
    ensures forall k | p < k < n :: !run.events[k].MotionEvent? && !run.events[k].ResetMotionEvent?
    ensures !MayDrive(run.states[n].vehicle) && run.states[n].slots.At(1 - i).held
  {
    hide Step, Decide, Reconcile;
    var st := run.states[n];
    ReconcileSlots(st, now, maxDelta);
    Decided.ReasonExplained(Reconcile(st, now, maxDelta), i, now, maxDelta, jumped);
    p := MovementSource(run, n);
  }

  // ----- Answers that cannot occur -----

  lemma AlignedJoin(st: State, i: Index, now: int, maxDelta: nat, jumped: bool)
    requires st.sampling.enabled && (Paired(st, now) ==> Aligned(st))
    ensures JoinObjection(st, i, now, maxDelta, jumped) != Some(WaitingForAlignment)
  {
    hide SecondPackStationary, Paired, Aligned, WindowsAgree, NonDriving, Distance;
  }

  lemma AlignedDecision(st: State, i: Index, now: int, maxDelta: nat, jumped: bool)
    requires st.sampling.enabled && (Paired(st, now) ==> Aligned(st))
    ensures !Decide(st, i, now, maxDelta, jumped).WaitingForAlignment?
  {
    hide JoinObjection, IsolationReady, KeepsHandover, NonDriving, Paired, Aligned;
    AlignedJoin(st, i, now, maxDelta, jumped);
  }

  /** With sampling on, paired readings are aligned in every reachable state, so no request is
      ever denied for misaligned readings. */
  lemma AlignmentNeverDenied(run: Run, n: nat, i: Index, now: int, maxDelta: nat, jumped: bool)
    requires IsRun(run) && n <= |run.events| && run.states[n].sampling.enabled
    ensures Paired(run.states[n], now) ==> Aligned(run.states[n])
    ensures !Verdict(run.states[n], i, now, maxDelta, jumped).WaitingForAlignment?
  {
    hide Step, Inv, Reconcile, Decide;
    ReachableInv(run, n);
    InvParts(run.states[n], i);
    ReconcileSlots(run.states[n], now, maxDelta);
    AlignedDecision(Reconcile(run.states[n], now, maxDelta), i, now, maxDelta, jumped);
  }

  /** Stopped-motion evidence never lets a pack join: in ready-to-drive the request is denied
      before motion is even consulted. */
  lemma DrivingNeverJoins(st: State, i: Index, now: int, maxDelta: nat, jumped: bool)
    requires !NonDriving(st.vehicle) && st.slots.At(1 - i).held
    ensures var r := Verdict(st, i, now, maxDelta, jumped);
            !(r.Admitted? || r.Requalified? || r.AwaitingOn?)
            && !r.WaitingForQualifiedPeer? && !r.WaitingForStationary?
  {
    hide Reconcile, IsolationReady, KeepsHandover, NonDriving;
    ReconcileSlots(st, now, maxDelta);
  }
}

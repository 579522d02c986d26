/** One step seen from each component of the state: a slot, the episode, the motion
    window and the evidence. */
module Effects {
  import opened Domain
  import opened Protocol
  import opened Runs
  import opened Invariant

  predicate Reads(e: Event, i: Index) {
    (e.ObserveEvent? || e.AcquireEvent?) && e.slot == i
  }

  function ReadData(e: Event): Frame
    requires e.ObserveEvent? || e.AcquireEvent?
  {
    if e.ObserveEvent? then e.data else e.sample.data
  }

  function ReadTime(e: Event): int
    requires e.ObserveEvent? || e.AcquireEvent?
  {
    if e.ObserveEvent? then e.now else e.sample.complete
  }

  /** The event sends OFF to slot `i`, by policy or as a correction. */
  ghost predicate CommandsOff(st: State, e: Event, i: Index) {
    || (e.OffEvent? && e.slot == i)
    || (e.CorrectiveOffEvent? && e.slot == i && CorrectiveOff(st, i, e.now))
  }

  /** The seatbox changed between known positions. */
  predicate SeatboxMoves(st: State, e: Event) {
    e.SetSeatboxEvent? && st.seatboxKnown && st.seatboxClosed != e.closed
  }

  /** Slot `i` after the event, apart from its window. */
  ghost function SlotEffect(st: State, e: Event, i: Index): Slot {
    var s := st.slots.At(i);
    if SeatboxMoves(st, e) then SeatboxInvalid(s)
    else if Reads(e, i) then
      Settled(s, ReadData(e), ReadTime(e)).(observedRound := if e.AcquireEvent? then e.id else 0)
    else if e.RequestOnEvent? && e.slot == i then Switched(s, e.now, Verdict(st, i, e.now, e.maxDelta, e.jumped))
    else if CommandsOff(st, e, i) then Commanded(s, e.now)
    else if e.TagEvent? && e.slot == i then Retagged(s, e.uid, NonDriving(st.vehicle))
    else if e.FailEvent? && e.slot == i then Failed(s)
    else if e.AbsentEvent? && e.slot == i then Gone(s, e.now, NonDriving(st.vehicle))
    else if e.SetRoleEvent? && e.slot == i then
      s.(eligible := e.eligible, powerTracked := s.powerTracked || e.eligible)
    else s
  }

  /** Equal apart from the sample window. */
  ghost predicate Alike(t: Slot, s: Slot) {
    t == s.(history := t.history)
  }

  lemma WipeSlot(st: State, unpair: bool, clear: bool, i: Index)
    ensures Wipe(st, unpair, clear).slots.At(i) == Clear(st.slots.At(i), clear)
    ensures Alike(Wipe(st, unpair, clear).slots.At(i), st.slots.At(i))
  {
    if i == 0 {} else {}
  }

  lemma PutSlot(st: State, j: Index, s: Slot, i: Index)
    ensures i == j ==> st.Put(j, s).slots.At(i) == s
    ensures i != j ==> st.Put(j, s).slots.At(i) == st.slots.At(i)
  {}

  lemma AlikeSwitched(t: Slot, s: Slot, now: int, reason: Reason)
    requires Alike(t, s)
    ensures Alike(Switched(t, now, reason), Switched(s, now, reason))
  {}

  lemma RequestSlot(st: State, j: Index, now: int, maxDelta: nat, jumped: bool, i: Index)
    ensures var t, s := RequestOn(st, j, now, maxDelta, jumped).slots.At(i), st.slots.At(i);
            && (i == j ==> Alike(t, Switched(s, now, Verdict(st, i, now, maxDelta, jumped))))
            && (i != j ==> Alike(t, s))
  {
    hide Decide, Selected, Dropped, Wipe, Alike, Switched;
    var r := Verdict(st, j, now, maxDelta, jumped);
    var c := Reconcile(st, now, maxDelta);
    var drop := r.Requalified? || r.Admitted?;
    WipeSlot(c, drop, drop, i);
    AlikeSwitched(Wipe(c, drop, drop).slots.At(i), c.slots.At(i), now, r);
    PutSlot(Wipe(c, drop, drop), j, Switched(Wipe(c, drop, drop).slots.At(j), now, r), i);
  }

  lemma FrameSlot(st: State, j: Index, data: Frame, now: int, i: Index)
    ensures var t, s := ObserveFrame(st, j, data, now).slots.At(i), st.slots.At(i);
            && (i == j ==> Alike(t, Settled(s, data, now)))
            && (i != j ==> Alike(t, s))
  {
    hide ObserveFrame, Settled, Releases, SerialSwap;
    FrameFacts(st, j, data, now);
  }

  lemma DeliverSlot(st: State, j: Index, a: Acquisition, i: Index)
    requires st.sampling.round.Some?
    ensures Alike(Deliver(st, j, a).slots.At(i), st.slots.At(i))
  {
    hide Completes, Sound, MayRun, WithPair, Wipe, Alike;
    WipeSlot(st, true, st.sampling.enabled, i);
    PairSlot(st, Stored(st.sampling.round.value, j, a), i);
    AlikeItself(st.slots.At(i));
  }

  lemma AlikeItself(s: Slot)
    ensures Alike(s, s)
  {}

  lemma AlikeTransitive(a: Slot, b: Slot, c: Slot)
    requires Alike(a, b) && Alike(b, c)
    ensures Alike(a, c)
  {}

  lemma PairSlot(st: State, r: Round, i: Index)
    ensures Alike(WithPair(st, r).slots.At(i), st.slots.At(i))
  {
    hide Appended;
    if i == 0 {} else {}
  }

  lemma AlikeMarked(t: Slot, s: Slot, id: nat)
    requires Alike(t, s)
    ensures Alike(t.(observedRound := id), s.(observedRound := id))
  {}

  lemma NotedSlot(st: State, j: Index, id: nat, a: Acquisition, i: Index)
    ensures var t, s := Noted(st, j, id, a).slots.At(i), st.slots.At(i);
            && (i == j ==> Alike(t, Settled(s, a.data, a.complete).(observedRound := id)))
            && (i != j ==> Alike(t, s))
  {
    hide ObserveFrame, Settled, Alike;
    FrameSlot(st, j, a.data, a.complete, i);
    var seen := ObserveFrame(st, j, a.data, a.complete);
    PutSlot(seen, j, seen.slots.At(j).(observedRound := id), i);
    if i == j {
      AlikeMarked(seen.slots.At(i), Settled(st.slots.At(i), a.data, a.complete), id);
    }
  }

  lemma AcquireSlot(st: State, j: Index, id: nat, a: Acquisition, i: Index)
    ensures var t, s := ObserveAcquisition(st, j, id, a).slots.At(i), st.slots.At(i);
            && (i == j ==> Alike(t, Settled(s, a.data, a.complete).(observedRound := id)))
            && (i != j ==> Alike(t, s))
  {
    hide Noted, Settled, Deliver, Wipe, Alike;
    NotedSlot(st, j, id, a, i);
    var noted := Noted(st, j, id, a);
    var t := ObserveAcquisition(st, j, id, a).slots.At(i);
    AlikeItself(noted.slots.At(i));
    WipeSlot(noted, true, noted.sampling.enabled, i);
    if noted.sampling.round.Some? {
      DeliverSlot(noted, j, a, i);
    }
    assert Alike(t, noted.slots.At(i));
    if i == j {
      AlikeTransitive(t, noted.slots.At(i), Settled(st.slots.At(i), a.data, a.complete).(observedRound := id));
    } else {
      AlikeTransitive(t, noted.slots.At(i), st.slots.At(i));
    }
  }

  lemma AlikeRetagged(t: Slot, s: Slot, uid: string, parked: bool)
    requires Alike(t, s)
    ensures Alike(Retagged(t, uid, parked), Retagged(s, uid, parked))
  {
    if s.uid == uid {} else {}
  }

  lemma AlikeFailed(t: Slot, s: Slot)
    requires Alike(t, s)
    ensures Alike(Failed(t), Failed(s))
  {
    assert Failed(t) == t.(valid := false, absent := false, history := []);
  }

  lemma AlikeGone(t: Slot, s: Slot, now: int, parked: bool)
    requires Alike(t, s)
    ensures Alike(Gone(t, now, parked), Gone(s, now, parked))
  {}

  lemma AlikeCommanded(t: Slot, s: Slot, now: int)
    requires Alike(t, s)
    ensures Alike(Commanded(t, now), Commanded(s, now))
  {
    assert Commanded(t, now).offPending == Commanded(s, now).offPending;
    assert Commanded(t, now).offAt == Commanded(s, now).offAt;
  }

  lemma AlikeRole(t: Slot, s: Slot, eligible: bool)
    requires Alike(t, s)
    ensures Alike(t.(eligible := eligible, powerTracked := t.powerTracked || eligible),
                  s.(eligible := eligible, powerTracked := s.powerTracked || eligible))
  {}

  lemma RoleSlot(st: State, e: Event, i: Index)
    requires e.SetRoleEvent?
    ensures Alike(Step(st, e).slots.At(i), SlotEffect(st, e, i))
  {
    hide Alike, Verdict, Settled, Retagged, Gone, Commanded, Switched, SeatboxInvalid, CorrectiveOff, SetRole;
    RoleAt(st, e.slot, e.eligible, i);
  }

  lemma RoleAt(st: State, j: Index, eligible: bool, i: Index)
    ensures var t, s := SetRole(st, j, eligible).slots.At(i), st.slots.At(i);
            && (i == j ==> Alike(t, s.(eligible := eligible, powerTracked := s.powerTracked || eligible)))
            && (i != j ==> Alike(t, s))
  {
    hide Wipe, Alike;
    WipeSlot(st, true, true, i);
    AlikeRole(Wipe(st, true, true).slots.At(i), st.slots.At(i), eligible);
  }

  lemma TagAt(st: State, j: Index, uid: string, i: Index)
    ensures var t, s := Tag(st, j, uid).slots.At(i), st.slots.At(i);
            && (i == j ==> Alike(t, Retagged(s, uid, NonDriving(st.vehicle))))
            && (i != j ==> Alike(t, s))
  {
    hide Wipe, Alike, Retagged, NonDriving;
    WipeSlot(st, true, st.sampling.enabled, i);
    AlikeRetagged(Wipe(st, true, st.sampling.enabled).slots.At(i), st.slots.At(i), uid, NonDriving(st.vehicle));
  }

  lemma TagSlot(st: State, e: Event, i: Index)
    requires e.TagEvent?
    ensures Alike(Step(st, e).slots.At(i), SlotEffect(st, e, i))
  {
    hide Alike, Verdict, Settled, Retagged, Gone, Commanded, Switched, SeatboxInvalid, CorrectiveOff, NonDriving, Tag;
    TagAt(st, e.slot, e.uid, i);
  }

  lemma FailAt(st: State, j: Index, i: Index)
    ensures var t, s := FailAcquisition(st, j).slots.At(i), st.slots.At(i);
            && (i == j ==> Alike(t, Failed(s)))
            && (i != j ==> Alike(t, s))
  {
    hide Wipe, Alike, Failed;
    WipeSlot(st, true, st.sampling.enabled, i);
    AlikeFailed(Wipe(st, true, st.sampling.enabled).slots.At(i), st.slots.At(i));
  }

  lemma AbsentAt(st: State, j: Index, now: int, i: Index)
    ensures var t, s := ObserveAbsent(st, j, now).slots.At(i), st.slots.At(i);
            && (i == j ==> Alike(t, Gone(s, now, NonDriving(st.vehicle))))
            && (i != j ==> Alike(t, s))
  {
    hide Wipe, Alike, Gone, NonDriving;
    WipeSlot(st, true, st.sampling.enabled, i);
    AlikeGone(Wipe(st, true, st.sampling.enabled).slots.At(i), st.slots.At(i), now, NonDriving(st.vehicle));
  }

  lemma MissedSlot(st: State, e: Event, i: Index)
    requires e.FailEvent? || e.AbsentEvent?
    ensures Alike(Step(st, e).slots.At(i), SlotEffect(st, e, i))
  {
    hide Alike, Verdict, Settled, Retagged, Gone, Commanded, Switched, SeatboxInvalid, CorrectiveOff, NonDriving,
         Failed, FailAcquisition, ObserveAbsent;
    match e
    case FailEvent(j) => FailAt(st, j, i);
    case AbsentEvent(j, now) => AbsentAt(st, j, now, i);
  }

  lemma OffSlot(st: State, j: Index, now: int, i: Index)
    ensures var t, s := OffAttempt(st, j, now).slots.At(i), st.slots.At(i);
            && (i == j ==> Alike(t, Commanded(s, now)))
            && (i != j ==> Alike(t, s))
  {
    hide Wipe, Alike, Commanded;
    WipeSlot(st, true, true, i);
    AlikeCommanded(Wipe(st, true, true).slots.At(i), st.slots.At(i), now);
  }

  lemma CommandedSlot(st: State, e: Event, i: Index)
    requires e.OffEvent? || e.CorrectiveOffEvent?
    ensures Alike(Step(st, e).slots.At(i), SlotEffect(st, e, i))
  {
    hide Alike, Verdict, Settled, Retagged, Gone, Commanded, Switched, SeatboxInvalid, CorrectiveOff, OffAttempt;
    OffSlot(st, e.slot, e.now, i);
    AlikeItself(st.slots.At(i));
  }

  /** Operations that leave the slots alone. */
  lemma UntouchedSlot(st: State, e: Event, i: Index)
    requires || e.SetVehicleEvent? || e.ShouldIsolateEvent? || e.BeginRoundEvent?
             || e.ClaimRoundEvent? || e.StopSamplingEvent? || e.MotionEvent? || e.ResetMotionEvent?
    ensures Alike(Step(st, e).slots.At(i), SlotEffect(st, e, i))
  {
    hide MotionAfter, MotionTurns, StoppedMotionFresh, VehicleShift, Opens, OpenRound, Selected, Dropped, Claims,
         Checked, Wipe, Alike, Verdict, Settled, Retagged, Gone, Commanded, Switched, CorrectiveOff;
    AlikeItself(st.slots.At(i));
    forall u, c {
      WipeSlot(st, u, c, i);
    }
    WipeSlot(st.(sampling := st.sampling.(stopped := true)), true, st.sampling.enabled, i);
  }

  lemma SeatboxSlot(st: State, e: Event, i: Index)
    requires e.SetSeatboxEvent?
    ensures Alike(Step(st, e).slots.At(i), SlotEffect(st, e, i))
  {
    hide Verdict, Settled, Retagged, Gone, Commanded, Switched, CorrectiveOff, NonDriving, Failed, Alike, Wipe,
         SeatboxInvalid;
    WipeSlot(st, true, true, i);
    AlikeItself(st.slots.At(i));
    AlikeSeatbox(Wipe(st, true, true).slots.At(i), st.slots.At(i));
    if i == 0 {} else {}
  }

  lemma AlikeSeatbox(t: Slot, s: Slot)
    requires Alike(t, s)
    ensures Alike(SeatboxInvalid(t), SeatboxInvalid(s))
  {}

  /** Every step acts on a slot exactly as `SlotEffect` says, whatever happens to its window. */
  lemma SlotStep(st: State, e: Event, i: Index)
    ensures Alike(Step(st, e).slots.At(i), SlotEffect(st, e, i))
  {
    hide RequestOn, ObserveFrame, ObserveAcquisition, Settled, Verdict, CorrectiveOff, Alike;
    match e
    case RequestOnEvent(j, now, maxDelta, jumped) => RequestSlot(st, j, now, maxDelta, jumped, i);
    case ObserveEvent(j, data, now) => FrameSlot(st, j, data, now, i); SettledUnmarked(st.slots.At(i), data, now);
    case AcquireEvent(j, id, sample) => AcquireSlot(st, j, id, sample, i);
    case SetRoleEvent(_, _) => RoleSlot(st, e, i);
    case TagEvent(_, _) => TagSlot(st, e, i);
    case FailEvent(_) => MissedSlot(st, e, i);
    case AbsentEvent(_, _) => MissedSlot(st, e, i);
    case OffEvent(_, _) => CommandedSlot(st, e, i);
    case CorrectiveOffEvent(_, _) => CommandedSlot(st, e, i);
    case SetSeatboxEvent(_) => SeatboxSlot(st, e, i);
    case _ => UntouchedSlot(st, e, i);
  }

  lemma SettledUnmarked(s: Slot, data: Frame, now: int)
    ensures Settled(s, data, now) == Settled(s, data, now).(observedRound := 0)
  {
    hide Settled;
    SettledPower(s, data, now);
  }

  // ----- The episode -----

  ghost function EpisodeEffect(st: State, e: Event): Option<Episode> {
    match e
    case ObserveEvent(i, data, now) =>
      var read := Read(st.slots.At(i), data, now);
      EpisodeAfter(st.isolation, i, ShowsOn(read), ShowsOff(read, now))
    case AcquireEvent(i, _, a) =>
      var read := Read(st.slots.At(i), a.data, a.complete);
      EpisodeAfter(st.isolation, i, ShowsOn(read), ShowsOff(read, a.complete))
    case RequestOnEvent(_, now, maxDelta, _) => Reconcile(st, now, maxDelta).isolation
    case ShouldIsolateEvent(_, now, maxDelta) => Reconcile(st, now, maxDelta).isolation
    case OffEvent(i, _) => Attempted(st.isolation, i)
    case CorrectiveOffEvent(i, now) => if CorrectiveOff(st, i, now) then Attempted(st.isolation, i) else st.isolation
    case _ => st.isolation
  }

  lemma AcquireEpisode(st: State, i: Index, id: nat, a: Acquisition)
    ensures ObserveAcquisition(st, i, id, a).isolation == ObserveFrame(st, i, a.data, a.complete).isolation
  {
    hide ObserveFrame, Completes, Sound, MayRun, Belongs;
  }

  lemma FrameEpisode(st: State, i: Index, data: Frame, now: int)
    ensures var read := Read(st.slots.At(i), data, now);
            ObserveFrame(st, i, data, now).isolation
            == EpisodeAfter(st.isolation, i, ShowsOn(read), ShowsOff(read, now))
  {
    hide Read, Settled, Releases, SerialSwap, EpisodeAfter, ShowsOn, ShowsOff, Wipe, Appended;
  }

  lemma EpisodeStep(st: State, e: Event)
    ensures Step(st, e).isolation == EpisodeEffect(st, e)
  {
    hide ObserveFrame, ObserveAcquisition, Read, ShowsOn, ShowsOff, EpisodeAfter, Decide, Selected, Dropped,
         CorrectiveOff, MotionTurns, MotionAfter, StoppedMotionFresh, Checked, Opens, OpenRound, Claims, Switched,
         Retagged, Gone, Commanded, SeatboxInvalid;
    match e
    case ObserveEvent(i, data, now) => FrameEpisode(st, i, data, now);
    case AcquireEvent(i, id, a) => AcquireEpisode(st, i, id, a); FrameEpisode(st, i, a.data, a.complete);
    case _ =>
  }

  // ----- Vehicle, motion and configuration -----

  /** Nothing but slots, episode, round and pair differs. */
  ghost predicate SameSurroundings(a: State, b: State) {
    && a.coordinated == b.coordinated && a.conservative == b.conservative
    && a.vehicle == b.vehicle && a.motion == b.motion
    && a.seatboxKnown == b.seatboxKnown && a.seatboxClosed == b.seatboxClosed
    && a.sampling.enabled == b.sampling.enabled && a.sampling.stopped == b.sampling.stopped
    && a.sampling.next == b.sampling.next
  }

  lemma DeliverSurroundings(st: State, i: Index, a: Acquisition)
    requires st.sampling.round.Some?
    ensures SameSurroundings(Deliver(st, i, a), st)
  {
    hide Completes, Sound, MayRun, Appended;
  }

  lemma FrameSurroundings(st: State, i: Index, data: Frame, now: int)
    ensures SameSurroundings(ObserveFrame(st, i, data, now), st)
  {
    hide ObserveFrame, Settled, Releases, SerialSwap;
    FrameFacts(st, i, data, now);
  }

  lemma AcquireSurroundings(st: State, i: Index, id: nat, a: Acquisition)
    ensures SameSurroundings(ObserveAcquisition(st, i, id, a), st)
  {
    hide ObserveFrame, Deliver;
    FrameSurroundings(st, i, a.data, a.complete);
    var noted := Noted(st, i, id, a);
    if noted.sampling.round.Some? {
      DeliverSurroundings(noted, i, a);
    }
  }

  ghost function MotionEffect(st: State, e: Event): Motion {
    match e
    case SetVehicleEvent(v, now, jumped) => Checked(st.motion, jumped && VehicleShift(st.vehicle, v))
    case MotionEvent(report, now, jumped) => MotionAfter(st.motion, report, now, jumped)
    case ResetMotionEvent => Unmoved(st.motion).(source := "", sequence := 0)
    case _ => st.motion
  }

  lemma MotionStep(st: State, e: Event)
    ensures Step(st, e).motion == MotionEffect(st, e)
    ensures Step(st, e).vehicle == if e.SetVehicleEvent? then e.vehicle else st.vehicle
  {
    hide ObserveFrame, ObserveAcquisition, Decide, Selected, Dropped, CorrectiveOff, MotionTurns, MotionAfter,
         StoppedMotionFresh, Checked, Opens, OpenRound, Claims, Switched, Retagged, Gone, Commanded, SeatboxInvalid,
         Unmoved, VehicleShift, Settled, Releases, SerialSwap;
    match e
    case ObserveEvent(i, data, now) => FrameSurroundings(st, i, data, now);
    case AcquireEvent(i, id, a) => AcquireSurroundings(st, i, id, a);
    case _ =>
  }

  /** Modes are fixed; coordination starts when both slots are eligible and never ends; shutdown never
      ends; rounds are numbered upwards; the seatbox is as last reported. */
  ghost predicate Configures(st: State, e: Event, t: State) {
    && t.conservative == st.conservative && t.sampling.enabled == st.sampling.enabled
    && (t.coordinated <==>
          st.coordinated || (e.SetRoleEvent? && t.slots.first.eligible && t.slots.second.eligible))
    && t.seatboxKnown == (st.seatboxKnown || e.SetSeatboxEvent?)
    && t.seatboxClosed == (if e.SetSeatboxEvent? then e.closed else st.seatboxClosed)
    && t.sampling.next == st.sampling.next + (if e.BeginRoundEvent? && Opens(st, e.now) then 1 else 0)
    && t.sampling.stopped == (st.sampling.stopped || e.StopSamplingEvent?)
  }

  lemma ConfigOfSlots(st: State, e: Event)
    requires || e.SetRoleEvent? || e.TagEvent? || e.FailEvent? || e.AbsentEvent? || e.OffEvent? || e.CorrectiveOffEvent?
             || e.SetSeatboxEvent?
    ensures Configures(st, e, Step(st, e))
  {
    hide CorrectiveOff, Opens, Retagged, Gone, Failed, Commanded, SeatboxInvalid, Attempted, NonDriving, Clear;
  }

  lemma ConfigOfRounds(st: State, e: Event)
    requires || e.RequestOnEvent? || e.ShouldIsolateEvent? || e.BeginRoundEvent? || e.ClaimRoundEvent?
             || e.StopSamplingEvent?
    ensures Configures(st, e, Step(st, e))
  {
    hide Decide, Selected, Dropped, Opens, OpenRound, Claims, Switched, Clear;
  }

  lemma ConfigOfMotion(st: State, e: Event)
    requires e.SetVehicleEvent? || e.MotionEvent? || e.ResetMotionEvent?
    ensures Configures(st, e, Step(st, e))
  {
    hide MotionTurns, MotionAfter, StoppedMotionFresh, Checked, Opens, Unmoved, VehicleShift, Clear;
  }

  lemma ConfigOfReadings(st: State, e: Event)
    requires e.ObserveEvent? || e.AcquireEvent?
    ensures Configures(st, e, Step(st, e))
  {
    hide ObserveFrame, ObserveAcquisition, Opens;
    match e
    case ObserveEvent(i, data, now) => FrameSurroundings(st, i, data, now);
    case AcquireEvent(i, id, a) => AcquireSurroundings(st, i, id, a);
  }

  lemma ConfigStep(st: State, e: Event)
    ensures Configures(st, e, Step(st, e))
  {
    hide Step, Configures;
    match e
    case ObserveEvent(_, _, _) => ConfigOfReadings(st, e);
    case AcquireEvent(_, _, _) => ConfigOfReadings(st, e);
    case SetVehicleEvent(_, _, _) => ConfigOfMotion(st, e);
    case MotionEvent(_, _, _) => ConfigOfMotion(st, e);
    case ResetMotionEvent => ConfigOfMotion(st, e);
    case RequestOnEvent(_, _, _, _) => ConfigOfRounds(st, e);
    case ShouldIsolateEvent(_, _, _) => ConfigOfRounds(st, e);
    case BeginRoundEvent(_) => ConfigOfRounds(st, e);
    case ClaimRoundEvent(_, _) => ConfigOfRounds(st, e);
    case StopSamplingEvent => ConfigOfRounds(st, e);
    case _ => ConfigOfSlots(st, e);
  }
}

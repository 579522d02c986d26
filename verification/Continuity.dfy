/** Permission to run over whole runs: kept while driving, never inherited, bounded while unconfirmed. */
module Continuity {
  import opened Domain
  import opened Protocol
  import opened Runs
  import opened Invariant
  import opened Effects
  import opened Decisions
  import opened Fields
  import opened Reservation

  // ----- An established supply keeps its heartbeat while driving -----

  /** The episode has sent slot `i` no OFF and does not make it wait for the other's. */
  predicate Tolerated(e: Episode, i: Index) {
    (e.victim == i ==> !e.attempted) && (e.handover && e.survivor == i ==> e.offConfirmed)
  }

  /** A qualified running supply, outside non-drive states, with at most an episode that tolerates it. */
  ghost predicate Established(st: State, i: Index) {
    var s := st.slots.At(i);
    && s.eligible && s.held && s.active && !s.requiresAdmission && !s.offPending
    && (st.isolation.Some? ==> Tolerated(st.isolation.value, i))
    && !NonDriving(st.vehicle)
  }

  /** The steps continuity excludes: OFF, another identity, losing the role, a releasing
      reading, and leaving the drive state. */
  predicate Disturbs(st: State, e: Event, i: Index) {
    var s := st.slots.At(i);
    || (e.OffEvent? && e.slot == i)
    || (e.TagEvent? && e.slot == i && e.uid != s.uid)
    || (Reads(e, i) && (SerialSwap(s, ReadData(e)) || Releases(s, ReadData(e), ReadTime(e))))
    || (e.SetRoleEvent? && e.slot == i && !e.eligible)
    || (e.SetVehicleEvent? && NonDriving(e.vehicle))
  }

  lemma NoCorrectionDriving(st: State, now: int)
    requires !NonDriving(st.vehicle)
    ensures !IsolationReady(st, now)
  {
    hide NonDriving;
  }

  lemma EstablishedSlot(st: State, e: Event, i: Index)
    requires Inv(st) && Established(st, i) && !Disturbs(st, e, i)
    ensures var t := Step(st, e).slots.At(i);
            t.eligible && t.held && t.active && !t.requiresAdmission && !t.offPending
  {
    hide Step, Inv, Verdict, Settled, Read, ShowsOn, ShowsOff, SerialSwap, NonDriving, IsolationReady;
    InvParts(st, i);
    SlotStep(st, e, i);
    if Reads(e, i) {
      SettledPower(st.slots.At(i), ReadData(e), ReadTime(e));
    } else if e.CorrectiveOffEvent? {
      NoCorrectionDriving(st, e.now);
    }
  }

  lemma DrivingReview(st: State, now: int, maxDelta: nat)
    requires !NonDriving(st.vehicle)
    ensures var after := Reconcile(st, now, maxDelta).isolation;
            after.None? || after == st.isolation
  {
    hide Dropped;
  }

  lemma EstablishedEpisode(st: State, e: Event, i: Index)
    requires Established(st, i) && !Disturbs(st, e, i)
    ensures Step(st, e).isolation.Some? ==> Tolerated(Step(st, e).isolation.value, i)
  {
    hide Step, Verdict, Reconcile, Read, ShowsOn, ShowsOff, IsolationReady, NonDriving;
    EpisodeStep(st, e);
    match e
    case RequestOnEvent(_, now, maxDelta, _) => DrivingReview(st, now, maxDelta);
    case ShouldIsolateEvent(_, now, maxDelta) => DrivingReview(st, now, maxDelta);
    case CorrectiveOffEvent(j, now) => NoCorrectionDriving(st, now);
    case _ =>
  }

  lemma EstablishedStep(st: State, e: Event, i: Index)
    requires Inv(st) && Established(st, i) && !Disturbs(st, e, i)
    ensures Established(Step(st, e), i)
  {
    hide Step, Inv, NonDriving, SerialSwap, Releases;
    EstablishedSlot(st, e, i);
    EstablishedEpisode(st, e, i);
    MotionStep(st, e);
  }

  lemma EstablishedGrant(st: State, i: Index, now: int, maxDelta: nat, jumped: bool)
    requires Inv(st) && Established(st, i)
    ensures Verdict(st, i, now, maxDelta, jumped) == MaintainingSupply
  {
    hide Inv, Reconcile, NonDriving, Qualify, IsolationReady, KeepsHandover;
    InvParts(st, i);
    DrivingReview(st, now, maxDelta);
    ReconcileSlots(st, now, maxDelta);
    NoCorrectionDriving(Reconcile(st, now, maxDelta), now);
  }

  lemma {:induction false} EstablishedLasts(run: Run, k: nat, n: nat, i: Index)
    requires IsRun(run) && k <= n <= |run.events| && Established(run.states[k], i)
    requires forall m | k <= m < n :: !Disturbs(run.states[m], run.events[m], i)
    ensures Established(run.states[n], i)
    decreases n
  {
    hide Step, Allowed, Inv, Established, Disturbs;
    if n > k {
      EstablishedLasts(run, k, n - 1, i);
      StepOf(run, n - 1);
      EstablishedStep(run.states[n - 1], run.events[n - 1], i);
    }
  }

  /** Drive continuity: every request of an established supply is granted through any
      interleaving of other steps that does not disturb it. */
  lemma DriveContinuity(run: Run, k: nat, n: nat, i: Index)
    requires IsRun(run) && k <= n < |run.events| && Established(run.states[k], i)
    requires forall m | k <= m < n :: !Disturbs(run.states[m], run.events[m], i)
    requires run.events[n].RequestOnEvent? && run.events[n].slot == i
    ensures GrantAt(run, n, i)
    ensures var e := run.events[n];
            Verdict(run.states[n], i, e.now, e.maxDelta, e.jumped) == MaintainingSupply
  {
    hide Step, Allowed, Inv, Established, Disturbs, Verdict;
    EstablishedLasts(run, k, n, i);
    StepOf(run, n);
    var e := run.events[n];
    EstablishedGrant(run.states[n], i, e.now, e.maxDelta, e.jumped);
  }

  // ----- Permission is not inherited -----

  lemma SeatboxStep(st: State, e: Event)
    ensures var t := Step(st, e);
            && t.seatboxKnown == (st.seatboxKnown || e.SetSeatboxEvent?)
            && t.seatboxClosed == if e.SetSeatboxEvent? then e.closed else st.seatboxClosed
  {
    hide Step, Opens;
    ConfigStep(st, e);
  }

  /** The seatbox counts as known from its first report on. */
  lemma {:induction false} SeatboxKnown(run: Run, n: nat)
    requires IsRun(run) && n <= |run.events|
    ensures run.states[n].seatboxKnown <==> exists k :: 0 <= k < n && run.events[k].SetSeatboxEvent?
    decreases n
  {
    hide Step, Allowed, Inv;
    if n == 0 {
      StartUntouched(run);
    } else {
      SeatboxKnown(run, n - 1);
      StepOf(run, n - 1);
      SeatboxStep(run.states[n - 1], run.events[n - 1]);
    }
  }

  /** The seatbox is as last reported. */
  lemma {:induction false} SeatboxAsReported(run: Run, k: nat, n: nat)
    requires IsRun(run) && k < n <= |run.events| && run.events[k].SetSeatboxEvent?
    requires forall m | k < m < n :: !run.events[m].SetSeatboxEvent?
    ensures run.states[n].seatboxClosed == run.events[k].closed
    decreases n
  {
    hide Step, Allowed, Inv;
    if n > k + 1 {
      SeatboxAsReported(run, k, n - 1);
    }
    StepOf(run, n - 1);
    SeatboxStep(run.states[n - 1], run.events[n - 1]);
  }

  lemma AdmissionStep(st: State, e: Event, i: Index)
    ensures var s, t := st.slots.At(i), Step(st, e).slots.At(i);
            t.requiresAdmission == ((s.requiresAdmission || DemandsAdmission(st, e, i)) && !Grants(st, e, i))
  {
    hide Step, DemandsAdmission, Grants, RecordsOff, EvidenceFields, PowerFields;
    FieldStep(st, e, i);
  }

  lemma {:induction false} AdmissionRequired(run: Run, k: nat, n: nat, i: Index)
    requires IsRun(run) && k < n <= |run.events| && DemandsAdmission(run.states[k], run.events[k], i)
    requires forall m | k < m < n :: !GrantAt(run, m, i)
    ensures run.states[n].slots.At(i).requiresAdmission
    decreases n
  {
    hide Step, Allowed, Inv, Verdict, DemandsAdmission;
    StepOf(run, n - 1);
    AdmissionStep(run.states[n - 1], run.events[n - 1], i);
    if n > k + 1 {
      AdmissionRequired(run, k, n - 1, i);
      assert !GrantAt(run, n - 1, i);
    } else {
      DemandIsNoRequest(run.states[k], run.events[k], i);
    }
  }

  lemma DemandIsNoRequest(st: State, e: Event, i: Index)
    requires DemandsAdmission(st, e, i)
    ensures !Grants(st, e, i)
  {
    hide Verdict;
  }

  /** The first grant after an event that demands admission passes the whole qualification path. */
  lemma PermissionNotInherited(run: Run, k: nat, n: nat, i: Index)
    requires IsRun(run) && k < n < |run.events| && DemandsAdmission(run.states[k], run.events[k], i)
    requires GrantAt(run, n, i) && forall m | k < m < n :: !GrantAt(run, m, i)
    ensures var st, e := run.states[n], run.events[n];
            var r := Verdict(st, i, e.now, e.maxDelta, e.jumped);
            && (r.Requalified? || r.Admitted?)
            && Qualified(Reconcile(st, e.now, e.maxDelta), i, e.now, e.maxDelta, e.jumped)
  {
    hide Step, Allowed, Inv, Decide, Reconcile, DemandsAdmission, Qualified;
    AdmissionRequired(run, k, n, i);
    var st, e := run.states[n], run.events[n];
    ReconcileSlots(st, e.now, e.maxDelta);
    GrantKinds(Reconcile(st, e.now, e.maxDelta), i, e.now, e.maxDelta, e.jumped);
  }

  // ----- An unconfirmed ON is bounded in time -----

  /** Reserved, never confirmed ACTIVE, and by the battery that was switched on. */
  predicate Unconfirmed(s: Slot) {
    s.held && !s.active && !s.identityUncertain
  }

  lemma UnconfirmedStep(st: State, e: Event, i: Index)
    requires Inv(st)
    ensures var s, t := st.slots.At(i), Step(st, e).slots.At(i);
            && (Grants(st, e, i) && !s.held ==> t.onAt == e.now)
            && (!(Grants(st, e, i) && !s.held) ==> t.onAt == s.onAt)
            && (Unconfirmed(t) && !Unconfirmed(s) ==> Grants(st, e, i) && !s.held)
            && (Unconfirmed(s) && Grants(st, e, i) ==> e.now - s.onAt <= ON_SETTLE)
  {
    hide Step, Inv, Grants, RecordsOff, DemandsAdmission, EvidenceFields, RoleFields, Trusted, MovedAt, AnotherSerial;
    FieldStep(st, e, i);
    InvParts(st, i);
    Quiet(st, e, i);
    if Reads(e, i) {
      SwappedIsUnread(st.slots.At(i), ReadData(e), ReadTime(e));
    }
    if Grants(st, e, i) {
      UnconfirmedRequest(st, e, i);
    }
  }

  lemma UnconfirmedRequest(st: State, e: Event, i: Index)
    requires SlotInv(st.slots.At(i)) && Grants(st, e, i)
    ensures Verdict(st, i, e.now, e.maxDelta, e.jumped).Admitted? == !st.slots.At(i).held
    ensures Unconfirmed(st.slots.At(i)) ==> e.now - st.slots.At(i).onAt <= ON_SETTLE
  {
    hide Decide, Reconcile, PeerObjection, NonDriving, KeepsHandover;
    var c := Reconcile(st, e.now, e.maxDelta);
    ReconcileSlots(st, e.now, e.maxDelta);
    GrantKinds(c, i, e.now, e.maxDelta, e.jumped);
    KeptSupplies(c, i, e.now);
  }

  /** The last ON is no later than any event still to come. */
  lemma {:induction false} OnBeforeNow(run: Run, n: nat, m: nat, i: Index)
    requires IsRun(run) && Clocked(run) && n <= m < |run.events| && Clock(run.events[m]).Some?
    ensures run.states[n].slots.At(i).onAt <= run.states[n].slots.At(i).lastOnAt <= Clock(run.events[m]).value
    decreases n
  {
    hide Step, Inv, Verdict;
    StepOf(run, m);
    if n == 0 {
      StartTimes(run, i);
    } else {
      OnBeforeNow(run, n - 1, m, i);
      StepOf(run, n - 1);
      PowerStep(run.states[n - 1], run.events[n - 1], i);
      UnconfirmedStep(run.states[n - 1], run.events[n - 1], i);
      if Grants(run.states[n - 1], run.events[n - 1], i) {
        assert Clock(run.events[n - 1]).Some?;
        OnBeforeNow(run, n - 1, n - 1, i);
      }
    }
  }

  lemma {:induction false} ConfiguredTimes(readers: seq<Reader>, i: Index)
    ensures var s := ConfiguredAll(BLANK_STATE, readers).slots.At(i);
            s.onAt == 0 && s.lastOnAt == 0
  {
    if readers != [] {
      ConfiguredTimes(readers[..|readers| - 1], i);
    }
  }

  lemma StartTimes(run: Run, i: Index)
    requires IsRun(run)
    ensures run.states[0].slots.At(i).onAt == 0 && run.states[0].slots.At(i).lastOnAt == 0
  {
    hide StepAt, ConfiguredAll;
    var readers, conservative, sampling, motion :|
      run.states[0] == Initial(readers, conservative, sampling, motion);
    ConfiguredTimes(readers, i);
  }

  /** An ON that was never confirmed was last repeated within the settling time of its first grant. */
  lemma {:induction false} UnconfirmedOnBounded(run: Run, n: nat, i: Index)
    requires IsRun(run) && Clocked(run) && n <= |run.events| && Unconfirmed(run.states[n].slots.At(i))
    ensures var s := run.states[n].slots.At(i);
            s.onAt <= s.lastOnAt <= s.onAt + ON_SETTLE
    decreases n
  {
    hide Step, Allowed, Inv, Verdict, Clocked;
    if n == 0 {
      StartUntouched(run);
      assert false;
    }
    var st, e := run.states[n - 1], run.events[n - 1];
    StepOf(run, n - 1);
    PowerStep(st, e, i);
    UnconfirmedStep(st, e, i);
    if Unconfirmed(st.slots.At(i)) {
      UnconfirmedOnBounded(run, n - 1, i);
    }
    if Grants(st, e, i) {
      OnBeforeNow(run, n - 1, n - 1, i);
    }
  }

  /** Past the settling time an unconfirmed ON is not repeated, whatever else holds. */
  lemma LateRetryDenied(st: State, i: Index, now: int, maxDelta: nat, jumped: bool)
    requires st.slots.At(i).held && !st.slots.At(i).active && now - st.slots.At(i).onAt > ON_SETTLE
    ensures !Verdict(st, i, now, maxDelta, jumped).Granted()
  {
    hide Decide, Reconcile, PeerObjection, NonDriving, KeepsHandover;
    var c := Reconcile(st, now, maxDelta);
    ReconcileSlots(st, now, maxDelta);
    if Decide(c, i, now, maxDelta, jumped).Granted() {
      GrantKinds(c, i, now, maxDelta, jumped);
      KeptSupplies(c, i, now);
      assert false;
    }
  }

  // ----- Power tracking -----

  /** The event shows that slot `i` can supply power: its role allows it or it reports ACTIVE. */
  predicate ShowsSupply(e: Event, i: Index) {
    || (e.SetRoleEvent? && e.slot == i && e.eligible)
    || (Reads(e, i) && ReadData(e).state.Active?)
  }

  lemma TrackedStep(st: State, e: Event, i: Index)
    ensures Step(st, e).slots.At(i).powerTracked == (st.slots.At(i).powerTracked || ShowsSupply(e, i))
  {
    hide Step, Grants, RecordsOff, DemandsAdmission, EvidenceFields, PowerFields;
    FieldStep(st, e, i);
  }

  /** The configuration makes slot `i` a supply. */
  predicate ConfiguresSupply(r: Reader, i: Index) {
    r.index == i && r.enabled && r.active
  }

  lemma ConfiguredTracked(st: State, r: Reader, i: Index)
    ensures Configured(st, r).slots.At(i).powerTracked == (st.slots.At(i).powerTracked || ConfiguresSupply(r, i))
    ensures var s, t := st.slots.At(i), Configured(st, r).slots.At(i);
            && t.monitored == (if r.index == i then r.enabled else s.monitored)
            && t.eligible == (if r.index == i then r.enabled && r.active else s.eligible)
  {
    if r.index == 0 {} else if r.index == 1 {}
  }

  lemma {:induction false} ConfiguredAllTracked(readers: seq<Reader>, i: Index)
    ensures ConfiguredAll(BLANK_STATE, readers).slots.At(i).powerTracked <==>
              exists k :: 0 <= k < |readers| && ConfiguresSupply(readers[k], i)
  {
    hide Configured, ConfiguresSupply;
    if readers != [] {
      var front, last := readers[..|readers| - 1], readers[|readers| - 1];
      ConfiguredAllTracked(front, i);
      ConfiguredTracked(ConfiguredAll(BLANK_STATE, front), last, i);
      assert forall k | 0 <= k < |front| :: readers[k] == front[k];
    }
  }

  /** `powerTracked` holds exactly when some configured reader of the slot was an enabled active
      one, the slot was later made eligible, or it reported ACTIVE. */
  lemma {:induction false} TrackedExactly(
    run: Run, readers: seq<Reader>, conservative: bool, sampling: bool, motion: bool, n: nat, i: Index)
    requires IsRun(run) && n <= |run.events| && run.states[0] == Initial(readers, conservative, sampling, motion)
    ensures run.states[n].slots.At(i).powerTracked <==>
              || (exists k :: 0 <= k < |readers| && ConfiguresSupply(readers[k], i))
              || (exists k :: 0 <= k < n && ShowsSupply(run.events[k], i))
    decreases n
  {
    hide Step, Allowed, Inv, ShowsSupply, ConfiguresSupply, ConfiguredAll;
    if n == 0 {
      ConfiguredAllTracked(readers, i);
    } else {
      TrackedExactly(run, readers, conservative, sampling, motion, n - 1, i);
      StepOf(run, n - 1);
      TrackedStep(run.states[n - 1], run.events[n - 1], i);
    }
  }
}

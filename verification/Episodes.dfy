/** Isolation and handover over whole runs. */
module Episodes {
  import opened Domain
  import opened Protocol
  import opened Runs
  import opened Invariant
  import opened Effects
  import opened Decisions
  import opened Fields
  import opened Reservation

  // ----- Corrective OFFs are exclusive -----

  ghost predicate CorrectedAt(run: Run, k: nat, i: Index)
    requires IsRun(run) && k < |run.events|
  {
    var e := run.events[k];
    e.CorrectiveOffEvent? && e.slot == i && CorrectiveOff(run.states[k], i, e.now)
  }

  /** Slot `i` is being switched off and its OFF is not proven. */
  ghost predicate SwitchingOff(st: State, i: Index) {
    && st.isolation.Some?
    && var e := st.isolation.value;
    && e.victim == i && e.attempted && !e.offConfirmed
    && st.slots.At(i).held && st.slots.At(i).offPending
  }

  lemma CorrectionStarts(st: State, e: Event, i: Index)
    requires Inv(st) && e.CorrectiveOffEvent? && e.slot == i && CorrectiveOff(st, i, e.now)
    ensures SwitchingOff(Step(st, e), i)
  {
    hide Step, SlotInv, RoundInv, PairInv, Verdict, Reconcile;
    PowerStep(st, e, i);
    EpisodeStep(st, e);
  }

  lemma ReviewKeepsAttempt(st: State, now: int, maxDelta: nat)
    requires st.isolation.Some? && st.isolation.value.attempted && !st.isolation.value.offConfirmed
    ensures Reconcile(st, now, maxDelta).isolation == st.isolation
  {
    hide Selected;
  }

  /** An attempted episode outlives everything but its victim's release. */
  lemma SwitchingOffStep(st: State, e: Event, i: Index)
    requires Inv(st) && SwitchingOff(st, i)
    ensures !Step(st, e).slots.At(i).held || SwitchingOff(Step(st, e), i)
  {
    hide Step, Inv, Verdict, Reconcile, Settled, Read, ShowsOn, ShowsOff, CorrectiveOff;
    PowerStep(st, e, i);
    EpisodeStep(st, e);
    InvParts(st, i);
    match e
    case RequestOnEvent(_, now, maxDelta, _) => ReviewKeepsAttempt(st, now, maxDelta);
    case ShouldIsolateEvent(_, now, maxDelta) => ReviewKeepsAttempt(st, now, maxDelta);
    case ObserveEvent(j, data, now) => ReadingDuringAttempt(st, e, i);
    case AcquireEvent(j, id, a) => ReadingDuringAttempt(st, e, i);
    case _ =>
  }

  lemma ReadingDuringAttempt(st: State, e: Event, i: Index)
    requires EpisodeInv(st) && SwitchingOff(st, i) && (e.ObserveEvent? || e.AcquireEvent?)
    ensures Step(st, e).slots.At(i).held ==>
              EpisodeEffect(st, e) == st.isolation && Step(st, e).slots.At(i).offPending
  {
    hide Step, Verdict, Settled, Read, ShowsOn, ShowsOff, CorrectiveOff;
    SlotStep(st, e, i);
    if e.slot == i {
      SettledPower(st.slots.At(i), ReadData(e), ReadTime(e));
      ShowsOneWay(Read(st.slots.At(i), ReadData(e), ReadTime(e)), ReadTime(e));
    }
  }

  lemma {:induction false} SwitchingOffLasts(run: Run, k: nat, n: nat, i: Index)
    requires IsRun(run) && k < n <= |run.events| && CorrectedAt(run, k, i)
    requires forall r | k < r < n :: !ReleaseAt(run, r, i)
    ensures SwitchingOff(run.states[n], i)
    decreases n
  {
    hide Step, Allowed, Inv, SwitchingOff, CorrectiveOff;
    StepOf(run, n - 1);
    if n == k + 1 {
      CorrectionStarts(run.states[k], run.events[k], i);
    } else {
      SwitchingOffLasts(run, k, n - 1, i);
      SwitchingOffStep(run.states[n - 1], run.events[n - 1], i);
      assert !ReleaseAt(run, n - 1, i);
      assert run.states[n - 1].slots.At(i).held by { SwitchingOffHolds(run.states[n - 1], i); }
    }
  }

  lemma SwitchingOffHolds(st: State, i: Index)
    requires SwitchingOff(st, i)
    ensures st.slots.At(i).held && st.slots.At(i).offPending && st.isolation.Some? && st.isolation.value.victim == i
  {}

  /** After a corrective OFF of one slot, the other cannot be switched off as a correction
      until the first was proven off, whatever happens in between. */
  lemma CorrectiveOffsExclusive(run: Run, k: nat, n: nat, i: Index)
    requires IsRun(run) && k < n < |run.events|
    requires CorrectedAt(run, k, i) && CorrectedAt(run, n, 1 - i)
    ensures exists r :: k < r < n && ReleaseAt(run, r, i)
                        && ProvenOff(run, r, i, run.states[r].slots.At(i).lastOnAt)
  {
    hide Step, Allowed, Inv, SwitchingOff, ProvenOff, IsolationReady;
    if forall r | k < r < n :: !ReleaseAt(run, r, i) {
      SwitchingOffLasts(run, k, n, i);
      SwitchingOffHolds(run.states[n], i);
      assert false;
    }
    var r :| k < r < n && ReleaseAt(run, r, i);
    ReleaseProven(run, r, i);
  }

  // ----- A handover starts its target only after the victim was proven off -----

  /** A slot whose OFF is pending is only kept alive a command time after that OFF. */
  lemma PendingGrant(st: State, e: Event, i: Index)
    requires Grants(st, e, i) && st.slots.At(i).offPending
    ensures e.now - st.slots.At(i).offAt >= COMMAND_TIME
  {
    hide Decide, Reconcile, Qualified;
    ReconcileSlots(st, e.now, e.maxDelta);
    GrantKinds(Reconcile(st, e.now, e.maxDelta), i, e.now, e.maxDelta, e.jumped);
  }

  /** A pending OFF that is not older than the last ON was sent by an event with no grant after it. */
  lemma {:induction false} OffSource(run: Run, n: nat, i: Index) returns (o: nat)
    requires IsRun(run) && n <= |run.events|
    requires run.states[n].slots.At(i).offPending
    requires run.states[n].slots.At(i).offAt >= run.states[n].slots.At(i).lastOnAt
    ensures o < n && CommandsOff(run.states[o], run.events[o], i)
    ensures run.events[o].now == run.states[n].slots.At(i).offAt
    ensures forall m | o < m < n :: !GrantAt(run, m, i)
    decreases n
  {
    hide Step, Allowed, Inv, Verdict, CorrectiveOff;
    if n == 0 {
      StartUntouched(run);
      assert false;
    }
    StepOf(run, n - 1);
    PowerStep(run.states[n - 1], run.events[n - 1], i);
    var s, t := run.states[n - 1].slots.At(i), run.states[n].slots.At(i);
    if t.offAt != s.offAt || !s.offPending {
      o := n - 1;
    } else {
      if Grants(run.states[n - 1], run.events[n - 1], i) {
        PendingGrant(run.states[n - 1], run.events[n - 1], i);
        assert false;
      }
      o := OffSource(run, n - 1, i);
      assert !GrantAt(run, n - 1, i);
    }
  }

  ghost predicate HandoverTo(st: State, target: Index) {
    st.isolation.Some? && st.isolation.value.handover && st.isolation.value.survivor == target
  }

  predicate OffAttempted(st: State) {
    st.isolation.Some? && st.isolation.value.attempted
  }

  predicate OffConfirmed(st: State) {
    st.isolation.Some? && st.isolation.value.offConfirmed
  }

  lemma ReviewKeepsOrDrops(st: State, now: int, maxDelta: nat)
    ensures var after := Reconcile(st, now, maxDelta).isolation;
            && (st.isolation.Some? && after.Some? ==> after == st.isolation)
            && (st.isolation.None? && after.Some? ==> !after.value.attempted && !after.value.offConfirmed)
  {
    hide Dropped;
  }

  /** A lasting handover keeps its attempt and its confirmation, and is confirmed only by its victim's release. */
  lemma HandoverStep(st: State, e: Event, v: Index)
    requires Inv(st) && HandoverTo(st, 1 - v) && HandoverTo(Step(st, e), 1 - v)
    ensures st.isolation.value.attempted ==> Step(st, e).isolation.value.attempted
    ensures st.isolation.value.offConfirmed ==> Step(st, e).isolation.value.offConfirmed
    ensures !st.isolation.value.offConfirmed && Step(st, e).isolation.value.offConfirmed ==>
              st.slots.At(v).held && !Step(st, e).slots.At(v).held
              && (st.isolation.value.attempted ==> st.slots.At(v).offPending)
  {
    hide Step, Inv, Verdict, Reconcile, Settled, Read, ShowsOn, ShowsOff, CorrectiveOff;
    EpisodeStep(st, e);
    InvParts(st, v);
    match e
    case RequestOnEvent(_, now, maxDelta, _) => ReviewKeepsOrDrops(st, now, maxDelta);
    case ShouldIsolateEvent(_, now, maxDelta) => ReviewKeepsOrDrops(st, now, maxDelta);
    case ObserveEvent(j, data, now) => ConfirmingRead(st, e, v);
    case AcquireEvent(j, id, a) => ConfirmingRead(st, e, v);
    case _ =>
  }

  lemma ConfirmingRead(st: State, e: Event, v: Index)
    requires e.ObserveEvent? || e.AcquireEvent?
    ensures var read := Read(st.slots.At(v), ReadData(e), ReadTime(e));
            e.slot == v && ShowsOff(read, ReadTime(e)) && !ShowsOn(read) ==> !Step(st, e).slots.At(v).held
  {
    hide Step, Verdict, Settled, Read, ShowsOn, ShowsOff, CorrectiveOff;
    SlotStep(st, e, v);
    SettledPower(st.slots.At(v), ReadData(e), ReadTime(e));
  }

  lemma {:induction false} AttemptLasts(run: Run, k: nat, n: nat, v: Index)
    requires IsRun(run) && k <= n <= |run.events|
    requires forall m | k <= m <= n :: HandoverTo(run.states[m], 1 - v)
    requires OffAttempted(run.states[k])
    ensures OffAttempted(run.states[n])
    decreases n
  {
    hide Step, Allowed, Inv;
    if n > k {
      AttemptLasts(run, k, n - 1, v);
      StepOf(run, n - 1);
      assert HandoverTo(run.states[n - 1], 1 - v) && HandoverTo(run.states[n], 1 - v);
      HandoverStep(run.states[n - 1], run.events[n - 1], v);
    }
  }

  lemma {:induction false} HandoverConfirmed(run: Run, k: nat, n: nat, v: Index) returns (r: nat)
    requires IsRun(run) && k <= n <= |run.events|
    requires forall m | k <= m <= n :: HandoverTo(run.states[m], 1 - v)
    requires OffAttempted(run.states[k]) && !OffConfirmed(run.states[k])
    requires OffConfirmed(run.states[n])
    ensures k <= r < n && ReleaseAt(run, r, v) && run.states[r].slots.At(v).offPending
    ensures OffConfirmed(run.states[r + 1])
    decreases n
  {
    hide Step, Allowed, Inv;
    StepOf(run, n - 1);
    assert HandoverTo(run.states[n - 1], 1 - v) && HandoverTo(run.states[n], 1 - v);
    if OffConfirmed(run.states[n - 1]) {
      r := HandoverConfirmed(run, k, n - 1, v);
    } else {
      r := n - 1;
      AttemptLasts(run, k, n - 1, v);
      HandoverStep(run.states[n - 1], run.events[n - 1], v);
    }
  }

  lemma {:induction false} ConfirmationLasts(run: Run, k: nat, n: nat, v: Index)
    requires IsRun(run) && k <= n <= |run.events|
    requires forall m | k <= m <= n :: HandoverTo(run.states[m], 1 - v)
    requires OffConfirmed(run.states[k])
    ensures OffConfirmed(run.states[n])
    decreases n
  {
    hide Step, Allowed, Inv;
    if n > k {
      ConfirmationLasts(run, k, n - 1, v);
      StepOf(run, n - 1);
      assert HandoverTo(run.states[n - 1], 1 - v) && HandoverTo(run.states[n], 1 - v);
      HandoverStep(run.states[n - 1], run.events[n - 1], v);
    }
  }

  /** While a confirmed handover lasts, its victim is granted nothing. */
  lemma ConfirmedVictimWaits(st: State, e: Event, v: Index)
    requires Inv(st) && HandoverTo(st, 1 - v) && HandoverTo(Step(st, e), 1 - v)
    requires OffAttempted(st) && OffConfirmed(st)
    ensures !Grants(st, e, v)
  {
    hide Step, Inv, Decide, Reconcile, Qualified;
    if Grants(st, e, v) {
      InvParts(st, v);
      EpisodeStep(st, e);
      ReviewKeepsOrDrops(st, e.now, e.maxDelta);
      GrantDuringEpisode(Reconcile(st, e.now, e.maxDelta), v, e.now, e.maxDelta, e.jumped);
      GrantKinds(Reconcile(st, e.now, e.maxDelta), v, e.now, e.maxDelta, e.jumped);
      assert false;
    }
  }

  /** OFF at event `o` and the reading at event `r` prove slot `v` off: no ON was granted in
      between, the reading is inactive and a command time later, and the payload moved after OFF. */
  ghost predicate OffAnswered(run: Run, o: nat, r: nat, v: Index)
    requires IsRun(run) && r < |run.events|
  {
    && o < r && CommandsOff(run.states[o], run.events[o], v)
    && (forall m | o < m < r :: !GrantAt(run, m, v))
    && Reads(run.events[r], v) && Complete(ReadData(run.events[r])) && !ReadData(run.events[r]).state.Active?
    && ReadTime(run.events[r]) - run.events[o].now >= COMMAND_TIME
    && exists p: nat, c: nat :: MovedAfter(run, p, c, r, v, run.events[o].now)
  }

  lemma ReleaseAnswersOff(run: Run, r: nat, v: Index) returns (o: nat)
    requires IsRun(run) && r < |run.events| && ReleaseAt(run, r, v) && run.states[r].slots.At(v).offPending
    ensures OffAnswered(run, o, r, v)
  {
    hide Step, Allowed, Inv, Forgets, Differs, Complete, CorrectiveOff, Verdict;
    StepOf(run, r);
    ReleaseStep(run.states[r], run.events[r], v);
    o := OffSource(run, r, v);
    var p, c := PayloadChange(run, r + 1, v);
    assert MovedAfter(run, p, c, r, v, run.events[o].now);
  }

  /** Handover ordering: as long as an attempted handover from `v` has lasted, its target is
      granted ON, even by a request whose own review ends the episode, only after an OFF that
      follows every ON granted to `v` so far was answered by `v`. A keepalive granted to `v` during
      a driving pause therefore costs a new OFF first. */
  lemma HandoverOrder(run: Run, k: nat, n: nat, v: Index)
    requires IsRun(run) && k <= n < |run.events|
    requires forall m | k <= m <= n :: HandoverTo(run.states[m], 1 - v)
    requires OffAttempted(run.states[k]) && !OffConfirmed(run.states[k])
    requires GrantAt(run, n, 1 - v)
    ensures exists o: nat, r: nat ::
              k <= r < n && OffAnswered(run, o, r, v) && forall m | o < m < n :: !GrantAt(run, m, v)
  {
    hide Step, Allowed, Inv, Verdict, OffAnswered;
    AttemptLasts(run, k, n, v);
    TargetWaits(run, n, v);
    var r := HandoverConfirmed(run, k, n, v);
    var o := ReleaseAnswersOff(run, r, v);
    AnswerExcludesGrants(run, o, r, v);
    forall m | o < m < n
      ensures !GrantAt(run, m, v)
    {
      if m > r {
        VictimWaits(run, k, r, m, v);
      }
    }
  }

  /** A target granted ON has a confirmed handover. */
  lemma TargetWaits(run: Run, n: nat, v: Index)
    requires IsRun(run) && n < |run.events| && HandoverTo(run.states[n], 1 - v) && OffAttempted(run.states[n])
    requires GrantAt(run, n, 1 - v)
    ensures OffConfirmed(run.states[n])
  {
    hide Step, Allowed, Inv, Decide, Reconcile;
    var st, e := run.states[n], run.events[n];
    StepOf(run, n);
    if !OffConfirmed(st) {
      InvParts(st, v);
      ReviewKeepsAttempt(st, e.now, e.maxDelta);
      GrantDuringEpisode(Reconcile(st, e.now, e.maxDelta), 1 - v, e.now, e.maxDelta, e.jumped);
      assert false;
    }
  }

  lemma AnswerExcludesGrants(run: Run, o: nat, r: nat, v: Index)
    requires IsRun(run) && r < |run.events| && OffAnswered(run, o, r, v)
    ensures o < r && forall m | o < m <= r :: !GrantAt(run, m, v)
  {
    hide Step, Verdict, CorrectiveOff, Complete;
  }

  lemma VictimWaits(run: Run, k: nat, r: nat, m: nat, v: Index)
    requires IsRun(run) && k <= r < m < |run.events|
    requires forall j | k <= j <= m + 1 :: HandoverTo(run.states[j], 1 - v)
    requires OffAttempted(run.states[k]) && OffConfirmed(run.states[r + 1])
    ensures !GrantAt(run, m, v)
  {
    hide Step, Allowed, Inv, Verdict;
    AttemptLasts(run, k, m, v);
    ConfirmationLasts(run, r + 1, m, v);
    StepOf(run, m);
    assert HandoverTo(run.states[m], 1 - v) && HandoverTo(run.states[m + 1], 1 - v);
    ConfirmedVictimWaits(run.states[m], run.events[m], v);
  }
}

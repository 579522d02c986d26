/** Power reservations over whole runs: what starts and ends them, and what a release proves. */
module Reservation {
  import opened Domain
  import opened Protocol
  import opened Runs
  import opened Invariant
  import opened Effects
  import opened Decisions
  import opened Fields

  lemma StepOf(run: Run, k: nat)
    requires IsRun(run) && k < |run.events|
    ensures run.states[k + 1] == Step(run.states[k], run.events[k])
    ensures Allowed(run.states[k], run.events[k])
    ensures Inv(run.states[k])
  {
    hide Step, Allowed, Inv;
    assert StepAt(run, k);
    ReachableInv(run, k);
  }

  /** What one step can do to a slot's power commands. */
  lemma PowerStep(st: State, e: Event, i: Index)
    ensures var s, t := st.slots.At(i), Step(st, e).slots.At(i);
            && t.lastOnAt == (if Grants(st, e, i) then e.now else s.lastOnAt)
            && (s.held && !t.held ==> Reads(e, i) && ReadsOff(s, ReadData(e), ReadTime(e)))
            && (s.offPending && !t.offPending ==> Reads(e, i) && ReadsOff(s, ReadData(e), ReadTime(e)))
            && t.offAt == (if RecordsOff(st, e, i) then e.now else s.offAt)
            && (!s.offPending && t.offPending ==> RecordsOff(st, e, i) && t.held)
            && (RecordsOff(st, e, i) ==> CommandsOff(st, e, i) && t.offPending && t.held)
            && (CommandsOff(st, e, i) && s.held ==> t.offPending && t.held)
  {
    hide Step, AnotherSerial, ReadsOn, ReadsOff, CorrectiveOff, Verdict, DemandsAdmission, EvidenceFields, RoleFields;
    FieldStep(st, e, i);
  }

  // ----- Readings and the payload change behind them -----

  /** The event makes slot `i` forget its readings: a tag report, an absence or another serial. */
  predicate Forgets(st: State, e: Event, i: Index) {
    || ((e.TagEvent? || e.AbsentEvent?) && e.slot == i)
    || (Reads(e, i) && AnotherSerial(st.slots.At(i), ReadData(e)))
  }

  /** The event makes slot `i`'s newest reading unusable: besides, a failed read or a moved seatbox. */
  predicate Spoils(st: State, e: Event, i: Index) {
    Forgets(st, e, i) || (e.FailEvent? && e.slot == i) || SeatboxTurns(st, e)
  }

  /** What a slot remembers of its readings. */
  lemma EvidenceStep(st: State, e: Event, i: Index)
    ensures var s, t := st.slots.At(i), Step(st, e).slots.At(i);
            && (t.haveFrame <==> Reads(e, i) || (s.haveFrame && !Forgets(st, e, i)))
            && (if Reads(e, i) then t.frame == ReadData(e) else t.haveFrame ==> t.frame == s.frame)
            && t.written == (if Forgets(st, e, i) then 0
                             else if Reads(e, i) && s.haveFrame && Differs(s.frame, ReadData(e)) then ReadTime(e)
                             else s.written)
            && (Reads(e, i) ==> t.observed == ReadTime(e))
            && (!Reads(e, i) && t.valid ==> t.observed == s.observed)
            && (t.valid <==> if Reads(e, i) then Complete(ReadData(e)) && t.written != 0
                             else s.valid && !Spoils(st, e, i))
  {
    hide Step, AnotherSerial, SeatboxTurns, Complete, Differs, RecordsOff, Grants, DemandsAdmission, RoleFields,
         PowerFields;
    FieldStep(st, e, i);
  }

  ghost predicate Remembers(run: Run, a: nat, b: nat, i: Index)
    requires IsRun(run) && b <= |run.events|
  {
    forall m | a < m < b :: !Forgets(run.states[m], run.events[m], i)
  }

  /** The frame a slot holds is its newest reading, with nothing forgotten since. */
  lemma {:induction false} LastFrame(run: Run, n: nat, i: Index) returns (p: nat)
    requires IsRun(run) && n <= |run.events| && run.states[n].slots.At(i).haveFrame
    ensures p < n && Reads(run.events[p], i) && ReadData(run.events[p]) == run.states[n].slots.At(i).frame
    ensures Remembers(run, p, n, i)
    ensures forall m | p < m < n :: !Reads(run.events[m], i)
    decreases n
  {
    hide Step, Allowed, Inv, Forgets;
    if n == 0 {
      StartUntouched(run);
      assert false;
    } else {
      StepOf(run, n - 1);
      EvidenceStep(run.states[n - 1], run.events[n - 1], i);
      if Reads(run.events[n - 1], i) {
        p := n - 1;
      } else {
        p := LastFrame(run, n - 1, i);
      }
    }
  }

  /** Two readings of slot `i` in a row, at events `p` and `c`, differ, and nothing was forgotten from `p` to `n`. */
  ghost predicate PayloadMoved(run: Run, p: nat, c: nat, n: nat, i: Index)
    requires IsRun(run) && n <= |run.events|
  {
    && p < c < n && Reads(run.events[p], i) && Reads(run.events[c], i)
    && (forall m | p < m < c :: !Reads(run.events[m], i))
    && Differs(ReadData(run.events[p]), ReadData(run.events[c]))
    && Remembers(run, p, n, i)
  }

  /** `written` is the time of a reading that differs from the one before it. */
  lemma {:induction false} PayloadChange(run: Run, n: nat, i: Index) returns (p: nat, c: nat)
    requires IsRun(run) && n <= |run.events| && run.states[n].slots.At(i).written != 0
    ensures PayloadMoved(run, p, c, n, i)
    ensures ReadTime(run.events[c]) == run.states[n].slots.At(i).written
    decreases n
  {
    hide Step, Allowed, Inv, Forgets, Differs;
    if n == 0 {
      StartUntouched(run);
      assert false;
    } else {
      StepOf(run, n - 1);
      EvidenceStep(run.states[n - 1], run.events[n - 1], i);
      if run.states[n].slots.At(i).written == run.states[n - 1].slots.At(i).written
         && !Forgets(run.states[n - 1], run.events[n - 1], i) {
        p, c := PayloadChange(run, n - 1, i);
      } else {
        c := n - 1;
        p := LastFrame(run, n - 1, i);
      }
    }
  }

  /** Valid data comes from a complete reading, the slot's newest, with nothing forgotten, no read
      failed and no seatbox moved since. */
  lemma {:induction false} LastReading(run: Run, n: nat, i: Index) returns (o: nat)
    requires IsRun(run) && n <= |run.events| && run.states[n].slots.At(i).valid
    ensures o < n && Reads(run.events[o], i) && Complete(ReadData(run.events[o]))
    ensures ReadData(run.events[o]) == run.states[n].slots.At(i).frame
    ensures ReadTime(run.events[o]) == run.states[n].slots.At(i).observed
    ensures Remembers(run, o, n, i)
    ensures forall m | o < m < n :: !Spoils(run.states[m], run.events[m], i)
    ensures forall m | o < m < n :: !Reads(run.events[m], i)
    decreases n
  {
    hide Step, Allowed, Inv, Forgets, Complete;
    if n == 0 {
      StartUntouched(run);
      assert false;
    } else {
      StepOf(run, n - 1);
      EvidenceStep(run.states[n - 1], run.events[n - 1], i);
      HaveFrame(run, n, i);
      if Reads(run.events[n - 1], i) {
        o := n - 1;
      } else {
        o := LastReading(run, n - 1, i);
      }
    }
  }

  lemma HaveFrame(run: Run, n: nat, i: Index)
    requires IsRun(run) && n <= |run.events| && run.states[n].slots.At(i).valid
    ensures run.states[n].slots.At(i).haveFrame
  {
    hide Inv, Step, Allowed, EpisodeInv, RoundInv, PairInv;
    ReachableInv(run, n);
    InvParts(run.states[n], i);
  }

  lemma ValidWasWritten(st: State, i: Index)
    requires Inv(st) && st.slots.At(i).valid
    ensures st.slots.At(i).written != 0
  {
    hide EpisodeInv, RoundInv, PairInv;
  }

  /** Reconciling touches only the episode. */
  lemma ReconcileSlots(st: State, now: int, maxDelta: nat)
    ensures var c := Reconcile(st, now, maxDelta);
            c == st.(isolation := c.isolation)
  {
    hide Selected, Dropped;
  }

  /** A grant that is not mere maintenance rests on two readings of different payload since the
      slot's latest tag report, absence or serial change; the newest reading is complete and at
      most ten seconds old. */
  lemma QualifiedGrantHasFreshEvidence(run: Run, n: nat, i: Index)
    requires IsRun(run) && n < |run.events| && GrantAt(run, n, i)
    requires var e := run.events[n];
             !Verdict(run.states[n], i, e.now, e.maxDelta, e.jumped).Maintenance()
    ensures exists p: nat, c: nat, o: nat ::
              && PayloadMoved(run, p, c, n, i)
              && c <= o < n && Reads(run.events[o], i) && Complete(ReadData(run.events[o]))
              && run.events[n].now - ReadTime(run.events[o]) <= MAX_AGE
              && Remembers(run, o, n, i)
              && forall m | o < m < n :: !Reads(run.events[m], i)
  {
    hide Step, Allowed, Inv, Forgets, Complete, Differs, Decide, PeerObjection, Reconcile, NonDriving;
    var st, e := run.states[n], run.events[n];
    StepOf(run, n);
    ReconcileSlots(st, e.now, e.maxDelta);
    GrantKinds(Reconcile(st, e.now, e.maxDelta), i, e.now, e.maxDelta, e.jumped);
    ValidWasWritten(st, i);
    var p, c := PayloadChange(run, n, i);
    var o := LastReading(run, n, i);
  }

  // ----- What a release proves -----

  /** A slot loses its reservation only to a valid inactive reading with positive OFF evidence. */
  lemma ReleaseStep(st: State, e: Event, i: Index)
    ensures st.slots.At(i).held && !Step(st, e).slots.At(i).held ==>
              && Reads(e, i) && Complete(ReadData(e)) && !ReadData(e).state.Active?
              && var s, t, now := st.slots.At(i), Step(st, e).slots.At(i), ReadTime(e);
              && t.written != 0
              && (s.offPending ==> s.offAt >= s.lastOnAt && now - s.offAt >= COMMAND_TIME && t.written > s.offAt)
              && (!s.offPending ==>
                    && t.written > s.lastOnAt
                    && (now - s.lastOnAt >= ON_SETTLE || (s.active && now - s.lastOnAt >= COMMAND_TIME)))
  {
    hide Step, Grants, RecordsOff, DemandsAdmission, AnotherSerial, Complete, Differs, MovedAt;
    FieldStep(st, e, i);
  }

  lemma GrantHolds(st: State, e: Event, i: Index)
    requires Grants(st, e, i)
    ensures Step(st, e).slots.At(i).held
  {
    hide Step, Decide, Settled, CorrectiveOff, Reconcile, Qualified;
    SlotStep(st, e, i);
    ReconcileSlots(st, e.now, e.maxDelta);
    GrantKinds(Reconcile(st, e.now, e.maxDelta), i, e.now, e.maxDelta, e.jumped);
  }

  lemma {:induction false} LastOnTime(run: Run, g: nat, n: nat, i: Index)
    requires IsRun(run) && g < n <= |run.events| && GrantAt(run, g, i)
    requires forall m | g < m < n :: !GrantAt(run, m, i)
    ensures run.states[n].slots.At(i).lastOnAt == run.events[g].now
    decreases n
  {
    hide Step, Allowed, Inv, Verdict;
    StepOf(run, n - 1);
    PowerStep(run.states[n - 1], run.events[n - 1], i);
    if n > g + 1 {
      LastOnTime(run, g, n - 1, i);
      assert !GrantAt(run, n - 1, i);
    }
  }

  lemma {:induction false} LastRelease(run: Run, k: nat, n: nat, i: Index) returns (r: nat)
    requires IsRun(run) && k <= n <= |run.events|
    requires run.states[k].slots.At(i).held && !run.states[n].slots.At(i).held
    ensures k <= r < n && ReleaseAt(run, r, i)
    decreases n
  {
    hide Step, Allowed, Inv;
    if run.states[n - 1].slots.At(i).held {
      r := n - 1;
    } else {
      r := LastRelease(run, k, n - 1, i);
    }
  }

  /** The payload moved, up to and including event `r`, at a reading later than `on`. */
  ghost predicate MovedAfter(run: Run, p: nat, c: nat, r: nat, i: Index, on: int)
    requires IsRun(run) && r < |run.events|
  {
    PayloadMoved(run, p, c, r + 1, i) && ReadTime(run.events[c]) > on
  }

  /** The reading at event `r` proves that slot `i`, last switched on at time `on`, is off: the
      payload moved after `on`, and the reading came at least a command time later, or the full
      settling time when ON was never confirmed and no OFF was pending. */
  ghost predicate ProvenOff(run: Run, r: nat, i: Index, on: int)
    requires IsRun(run) && r < |run.events|
  {
    var e, s := run.events[r], run.states[r].slots.At(i);
    && ReleaseAt(run, r, i)
    && Reads(e, i) && Complete(ReadData(e)) && !ReadData(e).state.Active?
    && ReadTime(e) - on >= COMMAND_TIME
    && (!s.active && !s.offPending ==> ReadTime(e) - on >= ON_SETTLE)
    && exists p: nat, c: nat :: MovedAfter(run, p, c, r, i, on)
  }

  lemma ReleaseProven(run: Run, r: nat, i: Index)
    requires IsRun(run) && r < |run.events| && ReleaseAt(run, r, i)
    ensures ProvenOff(run, r, i, run.states[r].slots.At(i).lastOnAt)
  {
    hide Step, Allowed, Inv, Forgets, Differs, Complete;
    StepOf(run, r);
    ReleaseStep(run.states[r], run.events[r], i);
    var p, c := PayloadChange(run, r + 1, i);
    assert MovedAfter(run, p, c, r, i, run.states[r].slots.At(i).lastOnAt);
  }

  /** Reservation soundness: a slot that was switched on and is no longer reserved was proven
      off, by a reading after its last granted ON. */
  lemma ReservationSound(run: Run, g: nat, n: nat, i: Index)
    requires IsRun(run) && g < n <= |run.events| && GrantAt(run, g, i)
    requires forall m | g < m < n :: !GrantAt(run, m, i)
    requires !run.states[n].slots.At(i).held
    ensures exists r :: g < r < n && ProvenOff(run, r, i, run.events[g].now)
  {
    hide Step, Allowed, Inv, Verdict, ProvenOff;
    StepOf(run, g);
    GrantHolds(run.states[g], run.events[g], i);
    var r := LastRelease(run, g + 1, n, i);
    ReleaseProven(run, r, i);
    LastOnTime(run, g, r, i);
  }
}

/** What a release needs is also enough: every reading that proves a slot off ends its reservation. */
module Release {
  import opened Domain
  import opened Protocol
  import opened Runs
  import opened Invariant
  import opened Effects
  import opened Decisions
  import opened Fields
  import opened Reservation
  import opened Episodes
  import opened Continuity

  // ----- The payload moved -----

  /** Between two readings in a row the slot keeps the first frame. */
  lemma {:induction false} FrameSince(run: Run, p: nat, n: nat, i: Index)
    requires IsRun(run) && p < n <= |run.events| && Reads(run.events[p], i) && Remembers(run, p, n, i)
    requires forall m | p < m < n :: !Reads(run.events[m], i)
    ensures run.states[n].slots.At(i).haveFrame && run.states[n].slots.At(i).frame == ReadData(run.events[p])
    decreases n
  {
    hide Step, Allowed, Inv, Forgets, Differs, Complete;
    StepOf(run, n - 1);
    EvidenceStep(run.states[n - 1], run.events[n - 1], i);
    if n > p + 1 {
      FrameSince(run, p, n - 1, i);
    }
  }

  /** The payload last moved no earlier than at any reading that differs from the one before. */
  lemma {:induction false} MovedNoEarlier(run: Run, p: nat, c: nat, n: nat, i: Index)
    requires IsRun(run) && Clocked(run) && n <= |run.events| && PayloadMoved(run, p, c, n, i)
    ensures run.states[n].slots.At(i).written >= ReadTime(run.events[c])
    decreases n
  {
    hide Step, Allowed, Inv, Forgets, Differs, Complete, Clocked;
    StepOf(run, n - 1);
    EvidenceStep(run.states[n - 1], run.events[n - 1], i);
    if n == c + 1 {
      FrameSince(run, p, c, i);
    } else {
      MovedNoEarlier(run, p, c, n - 1, i);
      if Reads(run.events[n - 1], i) {
        ReadLater(run, c, n - 1, i);
      }
    }
  }

  lemma ReadLater(run: Run, c: nat, m: nat, i: Index)
    requires IsRun(run) && Clocked(run) && c <= m < |run.events| && Reads(run.events[c], i) && Reads(run.events[m], i)
    ensures ReadTime(run.events[c]) <= ReadTime(run.events[m])
  {
    hide Step;
    assert Clock(run.events[c]) == Some(ReadTime(run.events[c]));
    assert Clock(run.events[m]) == Some(ReadTime(run.events[m]));
  }

  // ----- OFF on record -----

  /** Since a grant, an OFF still pending with none sent in between is older than the last ON. */
  lemma {:induction false} OlderThanOn(run: Run, g: nat, n: nat, i: Index)
    requires IsRun(run) && g < n <= |run.events| && GrantAt(run, g, i)
    requires forall m | g < m < n :: !CommandsOff(run.states[m], run.events[m], i)
    ensures var s := run.states[n].slots.At(i);
            s.offPending ==> s.offAt < s.lastOnAt
    decreases n
  {
    hide Step, Allowed, Inv, CommandsOff, Grants, ReadsOff;
    StepOf(run, n - 1);
    var st, e := run.states[n - 1], run.events[n - 1];
    PowerStep(st, e, i);
    GrantSendsNothing(st, e, i);
    if n > g + 1 {
      OlderThanOn(run, g, n - 1, i);
    }
    if Grants(st, e, i) && st.slots.At(i).offPending {
      PendingGrant(st, e, i);
    }
  }

  lemma GrantSendsNothing(st: State, e: Event, i: Index)
    ensures Grants(st, e, i) ==> !CommandsOff(st, e, i) && e.RequestOnEvent?
  {
    hide Verdict, CorrectiveOff;
  }

  /** The first OFF sent to a held slot after it was granted ON is put on record. */
  lemma FirstOffRecorded(run: Run, g: nat, k: nat, i: Index)
    requires IsRun(run) && g < k < |run.events| && GrantAt(run, g, i)
    requires CommandsOff(run.states[k], run.events[k], i) && run.states[k].slots.At(i).held
    requires forall m | g < m < k :: !CommandsOff(run.states[m], run.events[m], i)
    ensures RecordsOff(run.states[k], run.events[k], i)
    ensures var t := run.states[k + 1].slots.At(i);
            t.held && t.offPending && t.offAt == run.events[k].now
  {
    hide Step, Allowed, Inv, CommandsOff, Grants, ReadsOff;
    OlderThanOn(run, g, k, i);
    StepOf(run, k);
    PowerStep(run.states[k], run.events[k], i);
  }

  ghost predicate PendingFrom(run: Run, o: nat, n: nat, i: Index)
    requires IsRun(run) && n <= |run.events|
  {
    forall m | o < m <= n :: run.states[m].slots.At(i).offPending
  }

  /** An OFF on record keeps its time while it is pending and no ON follows, however often OFF is repeated. */
  lemma {:induction false} RecordLasts(run: Run, o: nat, n: nat, i: Index)
    requires IsRun(run) && Clocked(run) && o < n <= |run.events| && RecordsOff(run.states[o], run.events[o], i)
    requires PendingFrom(run, o, n, i) && forall m | o < m < n :: !GrantAt(run, m, i)
    ensures run.states[n].slots.At(i).offAt == run.events[o].now
    ensures run.states[n].slots.At(i).lastOnAt <= run.events[o].now
    decreases n
  {
    hide Step, Allowed, Inv, CommandsOff, Verdict, ReadsOff, Clocked;
    StepOf(run, n - 1);
    PowerStep(run.states[n - 1], run.events[n - 1], i);
    if n == o + 1 {
      RecordIsCommand(run.states[o], run.events[o], i);
      OnBeforeNow(run, o, o, i);
    } else {
      RecordLasts(run, o, n - 1, i);
      assert !GrantAt(run, n - 1, i);
    }
  }

  lemma RecordIsCommand(st: State, e: Event, i: Index)
    requires RecordsOff(st, e, i)
    ensures (e.OffEvent? || e.CorrectiveOffEvent?) && Clock(e) == Some(e.now) && !Grants(st, e, i)
  {
    hide CorrectiveOff, Verdict;
  }

  // ----- Every proof of OFF releases -----

  /** A reading that proves its slot off leaves it released, ends a corrective episode against it and
      confirms a handover from it. */
  lemma OffReleases(st: State, e: Event, i: Index)
    requires Reads(e, i) && ReadsOff(st.slots.At(i), ReadData(e), ReadTime(e))
    ensures var t := Step(st, e).slots.At(i);
            !t.held && !t.active && !t.offPending && !t.identityUncertain
    ensures st.isolation.Some? && st.isolation.value.victim == i ==>
              Step(st, e).isolation == if st.isolation.value.handover
                                       then Some(st.isolation.value.(offConfirmed := true)) else None
  {
    hide Step, DemandsAdmission, AnotherSerial, EvidenceFields, RoleFields, MovedAt, Trusted, CorrectiveOff, Verdict;
    FieldStep(st, e, i);
    SwappedIsUnread(st.slots.At(i), ReadData(e), ReadTime(e));
    hide ReadsOff;
    if st.isolation.Some? {
      EpisodeOfReading(st, e, i);
    }
  }

  lemma EpisodeOfReading(st: State, e: Event, i: Index)
    requires Reads(e, i) && st.isolation.Some?
    ensures var s, data, now, ep := st.slots.At(i), ReadData(e), ReadTime(e), st.isolation.value;
            var on, off := ReadsOn(s, data, now), ReadsOff(s, data, now);
            Step(st, e).isolation
            == if on && ep.handover && ep.offConfirmed && ep.survivor == i then None
               else if off && ep.victim == i && ep.handover then Some(ep.(offConfirmed := true))
               else if off && (ep.victim == i || (!ep.handover && ep.survivor == i && !ep.attempted)) then None
               else st.isolation
  {
    hide Step, Read, ShowsOn, ShowsOff, MovedAt, Trusted;
    EpisodeStep(st, e);
    ReadingJudged(st.slots.At(i), ReadData(e), ReadTime(e));
  }

  /** The answer to an OFF: once OFF is on record and still pending, with no ON since, a complete
      inactive reading at least 400 ms later, whose payload has moved after the OFF, releases the slot
      and confirms the handover from it. */
  lemma AnsweredOffReleases(run: Run, o: nat, r: nat, i: Index, p: nat, c: nat)
    requires IsRun(run) && Clocked(run) && o < r < |run.events| && RecordsOff(run.states[o], run.events[o], i)
    requires PendingFrom(run, o, r, i) && forall m | o < m < r :: !GrantAt(run, m, i)
    requires Reads(run.events[r], i) && Complete(ReadData(run.events[r])) && !ReadData(run.events[r]).state.Active?
    requires ReadTime(run.events[r]) >= run.events[o].now + 400 * MILLISECOND
    requires MovedAfter(run, p, c, r, i, run.events[o].now)
    ensures var t := run.states[r + 1].slots.At(i);
            !t.held && !t.active && !t.offPending && !t.identityUncertain
    ensures var before := run.states[r].isolation;
            before.Some? && before.value.victim == i ==>
              run.states[r + 1].isolation == if before.value.handover
                                             then Some(before.value.(offConfirmed := true)) else None
  {
    hide Step, Allowed, Inv, RecordsOff, Verdict, Complete, Differs, Forgets, Clocked;
    StepOf(run, r);
    RecordLasts(run, o, r, i);
    RecordPositive(run, o, i);
    MovedNoEarlier(run, p, c, r + 1, i);
    MovedIsWritten(run.states[r], run.events[r], i);
    OffReleases(run.states[r], run.events[r], i);
  }

  lemma RecordPositive(run: Run, o: nat, i: Index)
    requires IsRun(run) && o < |run.events| && RecordsOff(run.states[o], run.events[o], i)
    ensures run.events[o].now > CLOCK_FLOOR
  {
    hide Step, Inv;
    StepOf(run, o);
    RecordIsCommand(run.states[o], run.events[o], i);
  }

  lemma MovedIsWritten(st: State, e: Event, i: Index)
    requires Reads(e, i)
    ensures Step(st, e).slots.At(i).written == MovedAt(st.slots.At(i), ReadData(e), ReadTime(e))
  {
    hide Step, MovedAt, Trusted, RoleFields, PowerFields, Grants, RecordsOff, DemandsAdmission;
    FieldStep(st, e, i);
  }

  lemma {:induction false} OnNoLater(run: Run, n: nat, i: Index, on: int)
    requires IsRun(run) && n <= |run.events| && on >= 0
    requires forall g | 0 <= g < n && GrantAt(run, g, i) :: run.events[g].now <= on
    ensures run.states[n].slots.At(i).lastOnAt <= on
    decreases n
  {
    hide Step, Allowed, Inv, Verdict, ReadsOff;
    if n == 0 {
      StartTimes(run, i);
    } else {
      OnNoLater(run, n - 1, i, on);
      StepOf(run, n - 1);
      PowerStep(run.states[n - 1], run.events[n - 1], i);
      if Grants(run.states[n - 1], run.events[n - 1], i) {
        assert GrantAt(run, n - 1, i);
      }
    }
  }

  /** Without a pending OFF: a complete inactive reading whose payload has moved after the last ON
      releases a confirmed slot 400 ms, and an unconfirmed one 10 s, after that ON. */
  lemma SilentOffReleases(run: Run, r: nat, i: Index, on: int, p: nat, c: nat)
    requires IsRun(run) && Clocked(run) && r < |run.events| && on >= 0
    requires forall g | 0 <= g < r && GrantAt(run, g, i) :: run.events[g].now <= on
    requires !run.states[r].slots.At(i).offPending
    requires Reads(run.events[r], i) && Complete(ReadData(run.events[r])) && !ReadData(run.events[r]).state.Active?
    requires ReadTime(run.events[r]) >= on + if run.states[r].slots.At(i).active then 400 * MILLISECOND else 10 * SECOND
    requires MovedAfter(run, p, c, r, i, on)
    ensures var t := run.states[r + 1].slots.At(i);
            !t.held && !t.active && !t.offPending && !t.identityUncertain
    ensures var before := run.states[r].isolation;
            before.Some? && before.value.victim == i ==>
              run.states[r + 1].isolation == if before.value.handover
                                             then Some(before.value.(offConfirmed := true)) else None
  {
    hide Step, Allowed, Inv, Verdict, Complete, Differs, Forgets, Clocked;
    StepOf(run, r);
    OnNoLater(run, r, i, on);
    MovedNoEarlier(run, p, c, r + 1, i);
    MovedIsWritten(run.states[r], run.events[r], i);
    OffReleases(run.states[r], run.events[r], i);
  }
}

/** What an OFF of the isolation machine leaves running, over whole runs. */
module Corrections {
  import opened Domain
  import opened Protocol
  import opened Runs
  import opened Invariant
  import opened Effects
  import opened Fields
  import opened Reservation
  import opened Episodes
  import D = Decided

  /** Event `q` is slot `i`'s newest reading at state `n`: complete, read within ten seconds before
      `now`, healthy, and not spoiled since. */
  ghost predicate NewestReading(run: Run, q: nat, n: nat, i: Index, now: int)
    requires IsRun(run) && n <= |run.events|
  {
    && q < n && Reads(run.events[q], i) && Complete(ReadData(run.events[q])) && D.Healthy(ReadData(run.events[q]))
    && now <= ReadTime(run.events[q]) + 10 * SECOND
    && forall m | q < m < n :: !Reads(run.events[m], i) && !Spoils(run.states[m], run.events[m], i)
  }

  lemma RecentReading(run: Run, n: nat, i: Index, now: int) returns (q: nat)
    requires IsRun(run) && n <= |run.events|
    requires D.Recent(run.states[n].slots.At(i), now) && D.Healthy(run.states[n].slots.At(i).frame)
    ensures NewestReading(run, q, n, i, now) && ReadData(run.events[q]) == run.states[n].slots.At(i).frame
  {
    hide Step, Complete, Spoils;
    q := LastReading(run, n, i);
  }

  /** A corrective OFF succeeds exactly for the victim of an episode that is still justified. */
  lemma CorrectedExactly(st: State, i: Index, now: int)
    ensures CorrectiveOff(st, i, now) <==>
              && st.isolation.Some? && st.isolation.value.victim == i && D.Justified(st, st.isolation.value, now)
  {
    D.JustifiedExactly(st, now);
    hide IsolationReady;
  }

  /** Whenever a corrective OFF succeeds, the vehicle cannot drive, and the other slot either supplies
      power, is admitted and has no OFF pending, by an ACTIVE reading of the last ten seconds, or is the
      resting target of a handover, by an inactive one, in both cases of an eligible, healthy battery. */
  lemma CorrectionLeavesSupply(run: Run, k: nat, i: Index) returns (q: nat)
    requires IsRun(run) && k < |run.events| && CorrectedAt(run, k, i)
    ensures !MayDrive(run.states[k].vehicle)
    ensures NewestReading(run, q, k, 1 - i, run.events[k].now)
    ensures var s, data := run.states[k].slots.At(1 - i), ReadData(run.events[q]);
            && s.eligible && !s.offPending
            && run.states[k].isolation.Some?
            && (if run.states[k].isolation.value.handover then
                  !s.held && !data.state.Active? && !run.states[k].isolation.value.offConfirmed
                else
                  s.held && s.active && !s.requiresAdmission && data.state.Active?)
  {
    hide Step, Inv, Allowed, IsolationReady, Complete, Spoils, NewestReading;
    StepOf(run, k);
    InvParts(run.states[k], i);
    CorrectedExactly(run.states[k], i, run.events[k].now);
    q := RecentReading(run, k, 1 - i, run.events[k].now);
  }

  /** The first OFF of a handover further needs a pair of the last ten seconds, and calm windows of both. */
  lemma FirstHandoverOff(run: Run, k: nat, i: Index)
    requires IsRun(run) && k < |run.events| && CorrectedAt(run, k, i)
    requires run.states[k].isolation.Some? && run.states[k].isolation.value.handover
    requires !run.states[k].isolation.value.attempted
    ensures D.SamePair(run.states[k], run.events[k].now)
    ensures forall j: Index :: D.Calm(run.states[k].slots.At(j), run.events[k].now)
  {
    hide Step, Inv, Allowed, IsolationReady, D.SamePair, D.Calm;
    StepOf(run, k);
    InvParts(run.states[k], i);
    CorrectedExactly(run.states[k], i, run.events[k].now);
  }

  // ----- Review -----

  /** A review keeps, ends or creates an episode exactly as the fields say. */
  lemma ReviewExactly(st: State, now: int, limit: nat, e: Episode)
    ensures Reconcile(st, now, limit).isolation == Some(e) <==>
              if st.isolation.None? then D.Calls(st, now, limit, e)
              else
                && st.isolation == Some(e)
                && (!e.attempted ==> limit > 0 && !(e.handover && D.Pointless(st, e, now, limit)))
                && !(e.handover && e.offConfirmed && D.Stranded(st, e, now))
  {
    D.CreatedExactly(st, now, limit, e);
    D.EndedExactly(st, e, now, limit);
    hide Selected, Dropped, D.Calls, D.Pointless, D.Stranded;
  }

  /** Of two running, admitted, usable batteries that a current pair shows too far apart, a review
      without an episode keeps the higher voltage and orders the lower one off. */
  lemma LowerVoltageIsolated(st: State, now: int, limit: nat, i: Index)
    requires st.isolation.None? && D.Apart(st, now, limit)
    requires forall j: Index ::
               var s := st.slots.At(j);
               D.Supplying(s) && !s.requiresAdmission && s.eligible && D.Healthy(s.frame)
    requires st.slots.At(i).frame.voltage < st.slots.At(1 - i).frame.voltage
    ensures var c := Reconcile(st, now, limit);
            && c.isolation == Some(Episode(1 - i, i, false, false, false))
            && OrdersOff(c, i, now) && !OrdersOff(c, 1 - i, now)
  {
    var e := Episode(1 - i, i, false, false, false);
    assert st.slots.At(1 - i).eligible && st.slots.At(i).eligible;
    ReviewExactly(st, now, limit, e);
    var c := Reconcile(st, now, limit);
    D.OrderedExactly(c, i, now);
    D.OrderedExactly(c, 1 - i, now);
    hide Reconcile, OrdersOff;
    ReconcileSlots(st, now, limit);
  }
}

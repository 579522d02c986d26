/** How decisions relate: strict and baseline mode, OFF and ON, and the choice of a first supply. */
module Policies {
  import opened Domain
  import opened Protocol
  import opened Runs
  import opened Invariant
  import opened Decisions
  import opened Reservation

  // ----- Conservative mode only ever says no more often -----

  function InMode(st: State, conservative: bool): State {
    st.(conservative := conservative)
  }

  /** Beside a held, monitored peer, strict qualification implies baseline qualification. */
  lemma StrictObjection(st: State, i: Index, now: int, maxDelta: nat, jumped: bool)
    requires st.slots.At(1 - i).held && st.slots.At(1 - i).monitored
    requires PeerObjection(InMode(st, true), i, now, maxDelta, jumped).None?
    ensures PeerObjection(InMode(st, false), i, now, maxDelta, jumped).None?
  {
    hide Distance, NonDriving, WindowsAgree;
  }

  lemma StrictDecision(st: State, i: Index, now: int, maxDelta: nat, jumped: bool)
    requires st.slots.At(1 - i).held && st.slots.At(1 - i).monitored
    requires Decide(InMode(st, true), i, now, maxDelta, jumped).Granted()
    ensures Decide(InMode(st, false), i, now, maxDelta, jumped) == Decide(InMode(st, true), i, now, maxDelta, jumped)
  {
    hide PeerObjection, NonDriving, Aligned, Paired;
    if PeerObjection(InMode(st, true), i, now, maxDelta, jumped).None? {
      StrictObjection(st, i, now, maxDelta, jumped);
    }
  }

  /** Only conservative mode creates handovers; for all else the modes reconcile alike. */
  lemma ModesReconcile(st: State, now: int, maxDelta: nat)
    ensures var s, b := Reconcile(InMode(st, true), now, maxDelta), Reconcile(InMode(st, false), now, maxDelta);
            || b == InMode(s, false)
            || (st.isolation.None? && s.isolation.Some? && s.isolation.value.handover && !s.isolation.value.offConfirmed
                && s.isolation.value.survivor == 1 - s.isolation.value.victim
                && !st.slots.At(s.isolation.value.survivor).held)
  {
    hide Mismatched, Dropped;
    DroppedInMode(st, now, maxDelta);
    MismatchedInMode(st, now, maxDelta);
  }

  lemma DroppedInMode(st: State, now: int, maxDelta: nat)
    ensures st.isolation.Some? ==>
              Dropped(InMode(st, true), st.isolation.value, now, maxDelta)
              == Dropped(InMode(st, false), st.isolation.value, now, maxDelta)
  {}

  lemma MismatchedInMode(st: State, now: int, maxDelta: nat)
    ensures Mismatched(InMode(st, true), now, maxDelta) == Mismatched(InMode(st, false), now, maxDelta)
    ensures Survivor(InMode(st, true)) == Survivor(InMode(st, false))
  {
    hide NonDriving;
  }

  /** Strict refines baseline: from any state with a held, monitored peer, every ON that
      conservative mode grants is granted, for the same reason, by baseline mode. */
  lemma StrictRefinesBaseline(st: State, i: Index, now: int, maxDelta: nat, jumped: bool)
    requires st.slots.At(1 - i).held && st.slots.At(1 - i).monitored
    requires Verdict(InMode(st, true), i, now, maxDelta, jumped).Granted()
    ensures Verdict(InMode(st, false), i, now, maxDelta, jumped)
            == Verdict(InMode(st, true), i, now, maxDelta, jumped)
  {
    hide Reconcile, Decide;
    ModesReconcile(st, now, maxDelta);
    var s := Reconcile(InMode(st, true), now, maxDelta);
    ReconcileSlots(InMode(st, true), now, maxDelta);
    ReconcileSlots(InMode(st, false), now, maxDelta);
    if Reconcile(InMode(st, false), now, maxDelta) == InMode(s, false) {
      assert InMode(s, true) == s;
      StrictDecision(s, i, now, maxDelta, jumped);
    } else {
      GrantDuringEpisode(s, i, now, maxDelta, jumped);
    }
  }

  // ----- OFF and ON decisions agree -----

  /** On one snapshot, a slot ordered off is never granted ON. */
  lemma OrderedOffIsDenied(st: State, i: Index, now: int, maxDelta: nat, jumped: bool)
    requires OrdersOff(Reconcile(st, now, maxDelta), i, now)
    ensures !Verdict(st, i, now, maxDelta, jumped).Granted()
  {
    hide Reconcile, IsolationReady, Qualify, KeepsHandover;
  }

  /** The one family in which the two calls, made in turn, disagree: `shouldIsolate` itself has
      just created a handover away from an unusable pack of higher voltage. */
  predicate FallbackHandover(st: State, i: Index) {
    var s, target := st.slots.At(i), st.slots.At(1 - i);
    && st.isolation.None? && !target.held && s.frame.voltage > target.frame.voltage
    && s.eligible && !s.requiresAdmission
  }

  /** The state after a handover was created and cancelled again. */
  lemma FallbackCancelled(st: State, i: Index, now: int, maxDelta: nat)
    requires st.isolation.None? && st.slots.At(i).frame.voltage > st.slots.At(1 - i).frame.voltage
    requires !st.slots.At(1 - i).held
    requires OrdersOff(Reconcile(st, now, maxDelta), i, now)
    ensures Reconcile(Reconcile(st, now, maxDelta), now, maxDelta) == st
    ensures var s := st.slots.At(i);
            s.held && s.active && !s.offPending && !s.Usable()
  {
    hide NonDriving, KeepsHandover, IsolationReady, Aligned, Paired, Distance;
    CreatedEpisode(st, now, maxDelta);
    PairIgnoresEpisode(st, Reconcile(st, now, maxDelta).isolation, now);
    if i == 0 {} else {}
  }

  lemma PairIgnoresEpisode(st: State, isolation: Option<Episode>, now: int)
    ensures PairCurrent(st.(isolation := isolation), now) == PairCurrent(st, now)
  {}

  /** What a newly created episode says about the snapshot it was created from. */
  lemma CreatedEpisode(st: State, now: int, maxDelta: nat)
    requires st.isolation.None? && Selected(st, now, maxDelta).Some?
    ensures var e := Selected(st, now, maxDelta).value;
            && e.survivor == Survivor(st) && e.victim == 1 - e.survivor && !e.attempted && !e.offConfirmed
            && Mismatched(st, now, maxDelta)
            && st.slots.At(e.survivor).Usable() && Running(st.slots.At(e.victim))
            && (e.handover <==> !Running(st.slots.At(e.survivor)))
  {
    hide Mismatched, NonDriving;
  }

  /** When `shouldIsolate` orders a slot off and `requestOn` follows at the same instant and
      limit, the request is granted exactly in the fallback family. */
  lemma OffThenOnDisagree(st: State, i: Index, now: int, maxDelta: nat, jumped: bool)
    requires OrdersOff(Reconcile(st, now, maxDelta), i, now)
    requires st.isolation.Some? ==> st.isolation.value.survivor == 1 - st.isolation.value.victim
    ensures Verdict(Reconcile(st, now, maxDelta), i, now, maxDelta, jumped).Granted() <==> FallbackHandover(st, i)
  {
    hide Reconcile, OrdersOff, Decide;
    var c := Reconcile(st, now, maxDelta);
    var s, target := st.slots.At(i), st.slots.At(1 - i);
    if st.isolation.None? && !target.held && s.frame.voltage > target.frame.voltage {
      FallbackCancelled(st, i, now, maxDelta);
      FallbackDecision(st, i, now, maxDelta, jumped);
    } else {
      ReviewIsStable(st, i, now, maxDelta);
      OrderedOffIsDenied(c, i, now, maxDelta, jumped);
    }
  }

  /** Without an episode, an unusable running supply is granted ON only as maintenance. */
  lemma FallbackDecision(st: State, i: Index, now: int, maxDelta: nat, jumped: bool)
    requires st.isolation.None?
    requires var s := st.slots.At(i);
             s.held && s.active && !s.offPending && !s.Usable()
    ensures Decide(st, i, now, maxDelta, jumped).Granted() <==>
              st.slots.At(i).eligible && !st.slots.At(i).requiresAdmission
  {
    hide PeerObjection, NonDriving;
  }

  /** Outside the fallback family a second review changes nothing. */
  lemma ReviewIsStable(st: State, i: Index, now: int, maxDelta: nat)
    requires OrdersOff(Reconcile(st, now, maxDelta), i, now)
    requires st.isolation.Some? ==> st.isolation.value.survivor == 1 - st.isolation.value.victim
    requires !(st.isolation.None? && !st.slots.At(1 - i).held
               && st.slots.At(i).frame.voltage > st.slots.At(1 - i).frame.voltage)
    ensures Reconcile(Reconcile(st, now, maxDelta), now, maxDelta) == Reconcile(st, now, maxDelta)
  {
    hide NonDriving, KeepsHandover, IsolationReady, Aligned, Paired;
    if st.isolation.None? {
      CreatedEpisode(st, now, maxDelta);
      PairIgnoresEpisode(st, Reconcile(st, now, maxDelta).isolation, now);
      if i == 0 {} else {}
    }
  }

  // ----- Choosing the first supply -----

  ghost predicate ReadySlot(s: Slot) {
    s.monitored && s.valid && s.Usable() && !s.held
  }

  /** Two inactive, usable packs with valid data wait for power, and no episode is open. */
  ghost predicate TwoWaiting(st: State) {
    Inv(st) && ReadySlot(st.slots.first) && ReadySlot(st.slots.second) && st.isolation.None?
  }

  /** Slot 0 in baseline mode; in conservative mode the higher voltage, then the higher charge,
      then the lower index. */
  function Winner(st: State): Index {
    var a, b := st.slots.first.frame, st.slots.second.frame;
    if st.conservative && (b.voltage > a.voltage || (b.voltage == a.voltage && b.charge > a.charge)) then 1 else 0
  }

  /** Slot `w` was switched on and is not confirmed; the other pack is not reserved. */
  ghost predicate OneStarted(st: State, w: Index) {
    && Inv(st) && st.isolation.None?
    && st.slots.At(w).held && !st.slots.At(w).active && !st.slots.At(1 - w).held
  }

  lemma ReviewWithoutSupply(st: State, now: int, maxDelta: nat)
    requires st.isolation.None? && !st.slots.first.active && !st.slots.second.active
    ensures Reconcile(st, now, maxDelta) == st
  {
    hide Mismatched;
    if Survivor(st) == 0 {} else {}
  }

  /** A denied request changes nothing when there is nothing to reconcile. */
  lemma DenialIsSilent(st: State, i: Index, now: int, reason: Reason)
    requires !reason.Granted()
    ensures Enact(st, i, now, reason) == st
  {
    hide Wipe, Switched;
    WipeNothing(st);
    DeniedSlot(st.slots.At(i), now, reason);
    if i == 0 {} else {}
  }

  lemma DeniedSlot(s: Slot, now: int, reason: Reason)
    requires !reason.Granted()
    ensures Switched(s, now, reason) == s
  {}

  lemma LoserWaits(st: State, i: Index, now: int, maxDelta: nat, jumped: bool)
    requires TwoWaiting(st) && i != Winner(st)
    ensures !Decide(st, i, now, maxDelta, jumped).Granted()
  {
    hide Inv, JoinObjection, NonDriving, SlotInv, IsolationReady, KeepsHandover;
    InvParts(st, i);
    InvParts(st, 1 - i);
    NotHeldFacts(st.slots.At(i));
    NotHeldFacts(st.slots.At(1 - i));
    if i == 0 {} else {}
  }

  lemma NotHeldFacts(s: Slot)
    requires SlotInv(s)
    ensures !s.held ==> !s.active && !s.offPending && !s.identityUncertain
    ensures s.valid ==> !s.absent
    ensures s.eligible ==> s.powerTracked
    ensures s.held ==> s.monitored
  {}

  /** Beside a reserved but unconfirmed peer no other pack is granted ON. */
  lemma OtherWaits(st: State, i: Index, now: int, maxDelta: nat, jumped: bool)
    requires OneStarted(st, 1 - i)
    ensures !Decide(st, i, now, maxDelta, jumped).Granted()
  {
    hide Inv, SecondPackStationary, NonDriving, SlotInv, IsolationReady, KeepsHandover, SelectionObjection;
    InvParts(st, i);
    InvParts(st, 1 - i);
    NotHeldFacts(st.slots.At(i));
    NotHeldFacts(st.slots.At(1 - i));
  }

  lemma NoneActive(st: State)
    requires TwoWaiting(st) || OneStarted(st, 0) || OneStarted(st, 1)
    ensures !st.slots.first.active && !st.slots.second.active
  {
    hide Inv, SlotInv;
    InvParts(st, 0);
    InvParts(st, 1);
    NotHeldFacts(st.slots.first);
    NotHeldFacts(st.slots.second);
  }

  /** One request while two packs wait: the loser is denied without trace; a grant starts the winner. */
  lemma FirstRequest(st: State, i: Index, now: int, maxDelta: nat, jumped: bool)
    requires TwoWaiting(st)
    ensures Verdict(st, i, now, maxDelta, jumped).Granted() ==> i == Winner(st)
    ensures var t := RequestOn(st, i, now, maxDelta, jumped);
            t == st || OneStarted(t, Winner(st))
  {
    hide Inv, Reconcile, Decide, Enact, ReadySlot, Winner;
    NoneActive(st);
    ReviewWithoutSupply(st, now, maxDelta);
    var r := Decide(st, i, now, maxDelta, jumped);
    if i != Winner(st) {
      LoserWaits(st, i, now, maxDelta, jumped);
    }
    if r.Granted() {
      KeepRequest(st, i, now, maxDelta, jumped);
      StartedByGrant(st, i, now, maxDelta, jumped);
    } else {
      DenialIsSilent(st, i, now, r);
    }
  }

  lemma StartedByGrant(st: State, i: Index, now: int, maxDelta: nat, jumped: bool)
    requires TwoWaiting(st) && Decide(st, i, now, maxDelta, jumped).Granted()
    requires Inv(Enact(st, i, now, Decide(st, i, now, maxDelta, jumped)))
    ensures OneStarted(Enact(st, i, now, Decide(st, i, now, maxDelta, jumped)), i)
  {
    hide Inv, Decide, KeepsHandover, Qualified, Wipe;
    InvParts(st, i);
    NotHeldFacts(st.slots.At(i));
    NoneActive(st);
    GrantKinds(st, i, now, maxDelta, jumped);
    var r := Decide(st, i, now, maxDelta, jumped);
    var drop := r.Requalified? || r.Admitted?;
    WipeFacts(st, drop, drop, i);
    WipeFacts(st, drop, drop, 1 - i);
  }

  /** One request after a pack was started: the other is denied, and nothing else changes that matters. */
  lemma LaterRequest(st: State, w: Index, i: Index, now: int, maxDelta: nat, jumped: bool)
    requires OneStarted(st, w)
    ensures Verdict(st, i, now, maxDelta, jumped).Granted() ==> i == w
    ensures OneStarted(RequestOn(st, i, now, maxDelta, jumped), w)
  {
    hide Inv, Reconcile, Decide, Enact;
    NoneActive(st);
    ReviewWithoutSupply(st, now, maxDelta);
    KeepRequest(st, i, now, maxDelta, jumped);
    if i != w {
      OtherWaits(st, i, now, maxDelta, jumped);
      DenialIsSilent(st, i, now, Decide(st, i, now, maxDelta, jumped));
    } else {
      StillStarted(st, w, now, Decide(st, w, now, maxDelta, jumped));
    }
  }

  lemma StillStarted(st: State, w: Index, now: int, reason: Reason)
    requires OneStarted(st, w)
    ensures var t := Enact(st, w, now, reason);
            t.isolation.None? && t.slots.At(w).held && !t.slots.At(w).active && !t.slots.At(1 - w).held
  {
    hide Inv, Wipe;
    var drop := reason.Requalified? || reason.Admitted?;
    WipeFacts(st, drop, drop, w);
    WipeFacts(st, drop, drop, 1 - w);
  }

  lemma {:induction false} RequestsStartOne(run: Run, k: nat, n: nat)
    requires IsRun(run) && k <= n <= |run.events| && TwoWaiting(run.states[k])
    requires forall m | k <= m < n :: run.events[m].RequestOnEvent?
    ensures run.states[n] == run.states[k] || OneStarted(run.states[n], Winner(run.states[k]))
    ensures forall m, i: Index | k <= m < n && GrantAt(run, m, i) :: i == Winner(run.states[k])
    decreases n
  {
    hide Step, Allowed, Inv, TwoWaiting, OneStarted, Winner, Verdict;
    if n > k {
      RequestsStartOne(run, k, n - 1);
      StepOf(run, n - 1);
      var st, e := run.states[n - 1], run.events[n - 1];
      StepIsRequest(st, e);
      if st == run.states[k] {
        FirstRequest(st, e.slot, e.now, e.maxDelta, e.jumped);
      } else {
        LaterRequest(st, Winner(run.states[k]), e.slot, e.now, e.maxDelta, e.jumped);
      }
    }
  }

  lemma StepIsRequest(st: State, e: Event)
    requires e.RequestOnEvent?
    ensures Step(st, e) == RequestOn(st, e.slot, e.now, e.maxDelta, e.jumped)
  {}

  /** First-supply selection is exclusive and independent of order: however often and in whatever
      order two waiting packs ask, at whatever times and limits, only the winner is ever granted. */
  lemma FirstSupplyExclusive(run: Run, k: nat, n: nat, m: nat, i: Index)
    requires IsRun(run) && k <= m < n <= |run.events| && TwoWaiting(run.states[k])
    requires forall j | k <= j < n :: run.events[j].RequestOnEvent?
    requires GrantAt(run, m, i)
    ensures i == Winner(run.states[k])
  {
    hide Step, TwoWaiting, Winner, Verdict;
    RequestsStartOne(run, k, n);
  }

  /** The winner is not kept waiting: with recent data on both, in a known non-drive state or
      ready to drive, and unless the service is stopping, its request is admitted. */
  lemma WinnerAdmitted(st: State, now: int, maxDelta: nat, jumped: bool)
    requires TwoWaiting(st) && BothFresh(st, now) && !st.sampling.stopped
    requires NonDriving(st.vehicle) || st.vehicle.ReadyToDrive?
    ensures Verdict(st, Winner(st), now, maxDelta, jumped) == Admitted
  {
    hide Inv, Reconcile, JoinObjection, NonDriving, SlotInv, IsolationReady, KeepsHandover;
    NoneActive(st);
    ReviewWithoutSupply(st, now, maxDelta);
    InvParts(st, 0);
    InvParts(st, 1);
    NotHeldFacts(st.slots.first);
    NotHeldFacts(st.slots.second);
    if Winner(st) == 0 {} else {}
  }
}

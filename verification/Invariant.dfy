/** What every step keeps. */
module Invariant {
  import opened Domain
  import opened Protocol
  import opened Runs

  ghost predicate SlotInv(s: Slot) {
    && (s.active || s.offPending || s.identityUncertain ==> s.held)
    && (s.identityUncertain ==> !s.active)
    && (s.absent ==> !s.held && !s.valid)
    && (s.eligible || s.held ==> s.monitored && s.powerTracked)
    && (s.valid ==> s.haveFrame && s.written != 0 && Measured(s.frame))
    && (s.valid && s.frame.state.Active? ==> s.active)
  }

  /** An episode names both slots, keeps its victim reserved until OFF is proven, and
      leaves that victim's OFF pending once it was attempted. */
  ghost predicate EpisodeInv(st: State) {
    st.isolation.Some? ==>
      var e := st.isolation.value;
      var victim := st.slots.At(e.victim);
      && e.survivor == 1 - e.victim
      && (e.offConfirmed ==> e.handover)
      && (!e.offConfirmed ==> victim.held)
      && (e.attempted && !e.offConfirmed ==> victim.offPending)
  }

  /** A stored sample was claimed, is timely, and is the slot's frame while the slot shows this round. */
  ghost predicate StoredInv(r: Round, s: Slot, i: Index) {
    var a := r.samples.At(i);
    a.complete != 0 ==>
      && r.claimed.At(i) && Timely(r, a)
      && (s.observedRound == r.id ==> s.frame == a.data)
  }

  ghost predicate RoundInv(st: State) {
    st.sampling.round.Some? ==>
      var r := st.sampling.round.value;
      && 0 < r.id == st.sampling.next && r.openedAt > 0 && r.id != st.sampling.pairedId
      && StoredInv(r, st.slots.first, 0) && StoredInv(r, st.slots.second, 1)
  }

  /** A completed pair is still what both slots show. */
  predicate PairShown(st: State) {
    && st.sampling.pairedId != 0
    && st.slots.first.observedRound == st.sampling.pairedId
    && st.slots.second.observedRound == st.sampling.pairedId
  }

  ghost predicate PairInv(st: State) {
    && (st.sampling.pairedId == 0 <==> st.sampling.pairedAt == 0)
    && st.sampling.pairedId <= st.sampling.next
    && (st.sampling.pairedId != 0 || st.sampling.round.Some? ==> st.sampling.enabled && st.coordinated)
    && (PairShown(st) ==> Aligned(st))
  }

  ghost predicate Inv(st: State) {
    && SlotInv(st.slots.first) && SlotInv(st.slots.second)
    && EpisodeInv(st) && RoundInv(st) && PairInv(st)
  }

  lemma InvParts(st: State, i: Index)
    requires Inv(st)
    ensures SlotInv(st.slots.At(i)) && EpisodeInv(st) && RoundInv(st) && PairInv(st)
  {
    hide SlotInv, EpisodeInv, RoundInv, PairInv;
  }

  // ----- Each operation keeps it -----

  lemma KeepWipe(st: State, unpair: bool, clear: bool)
    requires Inv(st)
    ensures Inv(Wipe(st, unpair, clear))
  {
    hide Measured, Timely;
  }

  lemma WipeNothing(st: State)
    ensures Wipe(st, false, false) == st
  {
    assert Clear(st.slots.first, false) == st.slots.first;
    assert Clear(st.slots.second, false) == st.slots.second;
  }

  lemma WipeTwice(st: State, a: bool, b: bool, c: bool, d: bool)
    ensures Wipe(Wipe(st, a, b), c, d) == Wipe(st, a || c, b || d)
  {}

  lemma WipeFacts(st: State, unpair: bool, clear: bool, i: Index)
    ensures var w := Wipe(st, unpair, clear);
            && w.coordinated == st.coordinated && w.conservative == st.conservative
            && w.isolation == st.isolation && w.vehicle == st.vehicle && w.motion == st.motion
            && w.slots.At(i) == st.slots.At(i).(history := w.slots.At(i).history)
  {
    if i == 0 {
      assert Wipe(st, unpair, clear).slots.first == Clear(st.slots.first, clear);
    } else {
      assert Wipe(st, unpair, clear).slots.second == Clear(st.slots.second, clear);
    }
  }

  lemma KeepSurroundings(st: State, v: Vehicle, m: Motion)
    requires Inv(st)
    ensures Inv(st.(vehicle := v, motion := m))
  {}

  lemma KeepRole(st: State, i: Index, eligible: bool)
    requires Inv(st) && (eligible ==> st.slots.At(i).monitored)
    ensures Inv(SetRole(st, i, eligible))
  {}

  lemma KeepVehicle(st: State, v: Vehicle, now: int, jumped: bool)
    requires Inv(st)
    ensures Inv(SetVehicle(st, v, now, jumped))
  {
    hide StoppedMotionFresh, VehicleShift, Wipe, Checked, Inv;
    var shift := VehicleShift(st.vehicle, v);
    var drop := shift && !StoppedMotionFresh(st.motion, now, jumped);
    KeepWipe(st, drop, drop);
    KeepSurroundings(Wipe(st, drop, drop), v, Checked(st.motion, jumped && shift));
  }

  lemma KeepSeatbox(st: State, closed: bool)
    requires Inv(st)
    ensures Inv(SetSeatbox(st, closed))
  {
    hide Measured, Timely;
  }

  lemma KeepTag(st: State, i: Index, uid: string)
    requires Inv(st)
    ensures Inv(Tag(st, i, uid))
  {}

  lemma KeepFail(st: State, i: Index)
    requires Inv(st)
    ensures Inv(FailAcquisition(st, i))
  {}

  lemma KeepAbsent(st: State, i: Index, now: int)
    requires Inv(st)
    ensures Inv(ObserveAbsent(st, i, now))
  {}

  /** The slot invariant before a frame's power meaning is settled. */
  ghost predicate UnsettledInv(s: Slot) {
    && (s.active || s.offPending || s.identityUncertain ==> s.held)
    && (s.identityUncertain ==> !s.active)
    && (s.absent ==> !s.held && !s.valid)
    && (s.eligible || s.held || ShowsOn(s) ==> s.monitored && s.powerTracked)
    && (s.valid ==> s.haveFrame && s.written != 0 && Measured(s.frame))
  }

  lemma KeepIdentified(s: Slot, data: Frame)
    requires SlotInv(s) && s.monitored
    ensures SlotInv(Identified(s, data))
    ensures Identified(s, data).monitored && Identified(s, data).held == s.held
    ensures data.state.Active? ==> Identified(s, data).powerTracked
  {
    hide Measured;
  }

  lemma KeepReceived(s: Slot, data: Frame, now: int)
    requires SlotInv(s) && s.monitored && (data.state.Active? ==> s.powerTracked)
    ensures UnsettledInv(Received(s, data, now))
  {}

  lemma KeepResolved(s: Slot, off: bool)
    requires UnsettledInv(s) && (off ==> s.valid && !s.frame.state.Active?)
    ensures SlotInv(Resolved(s, ShowsOn(s), off))
  {
    hide Measured;
  }

  lemma KeepSettled(s: Slot, data: Frame, now: int, h: seq<Sample>)
    requires SlotInv(s) && s.monitored
    ensures SlotInv(Settled(s, data, now).(history := h))
  {
    hide SlotInv, UnsettledInv, Identified, Received, Resolved, ShowsOn;
    KeepIdentified(s, data);
    KeepReceived(Identified(s, data), data, now);
    var read := Read(s, data, now);
    KeepResolved(read, ShowsOff(read, now));
    KeepHistory(Settled(s, data, now), h);
  }

  lemma KeepHistory(s: Slot, h: seq<Sample>)
    requires SlotInv(s)
    ensures SlotInv(s.(history := h))
  {}

  /** Replace one slot by one that shows no round. */
  lemma KeepPut(st: State, i: Index, s: Slot, isolation: Option<Episode>)
    requires Inv(st) && SlotInv(s) && s.observedRound == 0
    requires EpisodeInv(st.Put(i, s).(isolation := isolation))
    ensures Inv(st.Put(i, s).(isolation := isolation))
  {
    hide SlotInv, EpisodeInv;
  }

  lemma KeepEpisode(st: State, i: Index, s: Slot, on: bool, off: bool)
    requires EpisodeInv(st)
    requires s.held == (on || (st.slots.At(i).held && !off))
    requires s.offPending == (st.slots.At(i).offPending && !off)
    requires !(on && off)
    ensures EpisodeInv(st.Put(i, s).(isolation := EpisodeAfter(st.isolation, i, on, off)))
  {}

  /** Identifying a frame's pack leaves the power command alone. */
  lemma IdentifiedPower(s: Slot, data: Frame)
    ensures var t := Identified(s, data);
            && t.held == s.held && t.onAt == s.onAt && t.lastOnAt == s.lastOnAt
            && t.offPending == s.offPending && t.offAt == s.offAt
            && t.active == (s.active && !SerialSwap(s, data))
            && t.identityUncertain == (if SerialSwap(s, data) then s.held else s.identityUncertain)
            && t.requiresAdmission == (s.requiresAdmission || SerialSwap(s, data))
            && t.powerTracked == (s.powerTracked || data.state.Active?)
            && t.monitored == s.monitored && t.eligible == s.eligible
            && t.haveFrame == (s.haveFrame && !SerialSwap(s, data))
            && t.written == (if SerialSwap(s, data) then 0 else s.written)
            && (!SerialSwap(s, data) ==> t.frame == s.frame && t.history == s.history)
  {}

  lemma ReadPower(s: Slot, data: Frame, now: int)
    ensures var t := Read(s, data, now);
            && t.held == s.held && t.onAt == s.onAt && t.lastOnAt == s.lastOnAt
            && t.offPending == s.offPending && t.offAt == s.offAt
            && t.active == (s.active && !SerialSwap(s, data))
            && t.identityUncertain == (if SerialSwap(s, data) then s.held else s.identityUncertain)
            && t.requiresAdmission == (s.requiresAdmission || SerialSwap(s, data))
            && t.powerTracked == (s.powerTracked || data.state.Active?)
            && t.monitored == s.monitored && t.eligible == s.eligible
            && t.valid == (Measured(data) && t.written != 0)
            && t.written == (if !SerialSwap(s, data) && s.haveFrame && FrameChanged(s.frame, data) then now
                             else if SerialSwap(s, data) then 0 else s.written)
            && t.frame == data && t.observed == now && t.observedRound == 0 && !t.absent && t.haveFrame
  {
    hide Identified, SerialSwap, Measured, FrameChanged;
    IdentifiedPower(s, data);
  }

  lemma SettledPower(s: Slot, data: Frame, now: int)
    ensures var t, read := Settled(s, data, now), Read(s, data, now);
            && t.held == (ShowsOn(read) || (s.held && !ShowsOff(read, now)))
            && t.offPending == (s.offPending && !ShowsOff(read, now))
            && t.active == (ShowsOn(read) || (s.active && !SerialSwap(s, data) && !ShowsOff(read, now)))
            && t.identityUncertain == (read.identityUncertain && !ShowsOn(read) && !ShowsOff(read, now))
            && t.requiresAdmission == (s.requiresAdmission || SerialSwap(s, data))
            && t.powerTracked == (s.powerTracked || data.state.Active?)
            && t.eligible == s.eligible && t.monitored == s.monitored
            && t.valid == read.valid && t.written == read.written && t.haveFrame
            && t.observedRound == 0 && t.observed == now && t.frame == data
            && t.onAt == s.onAt && t.lastOnAt == s.lastOnAt && t.offAt == s.offAt
  {
    hide ShowsOn, ShowsOff, Read, SerialSwap;
    ReadPower(s, data, now);
  }

  lemma KeepSettledPut(st: State, i: Index, data: Frame, now: int, h: seq<Sample>, base: State)
    requires Inv(st) && Inv(base) && st.slots.At(i).monitored
    requires base.isolation == st.isolation
    requires base.slots.At(i) == st.slots.At(i).(history := base.slots.At(i).history)
    ensures var read := Read(st.slots.At(i), data, now);
            Inv(base.Put(i, Settled(st.slots.At(i), data, now).(history := h))
                .(isolation := EpisodeAfter(st.isolation, i, ShowsOn(read), ShowsOff(read, now))))
  {
    hide Inv, SlotInv, EpisodeInv, Read, Settled, EpisodeAfter, ShowsOn, ShowsOff;
    InvParts(st, i);
    InvParts(base, i);
    var s := st.slots.At(i);
    var read := Read(s, data, now);
    var t := Settled(s, data, now).(history := h);
    SettledPower(s, data, now);
    KeepSettled(s, data, now, h);
    ShowsOneWay(read, now);
    KeepEpisode(base, i, t, ShowsOn(read), ShowsOff(read, now));
    KeepPut(base, i, t, EpisodeAfter(st.isolation, i, ShowsOn(read), ShowsOff(read, now)));
  }

  lemma KeepFrame(st: State, i: Index, data: Frame, now: int)
    requires Inv(st) && now > CLOCK_FLOOR && st.slots.At(i).monitored
    ensures Inv(ObserveFrame(st, i, data, now))
  {
    hide Inv, Read, Settled, Releases, EpisodeAfter, Wipe, ShowsOn, ShowsOff, SerialSwap;
    var s := st.slots.At(i);
    var read := Read(s, data, now);
    var swap, lost := SerialSwap(s, data), Releases(s, data, now);
    var kept := if lost then [] else read.history;
    var logs := read.valid && !(st.sampling.enabled && st.coordinated);
    var base := Wipe(st, swap || lost, (swap && st.sampling.enabled) || lost);
    KeepWipe(st, swap || lost, (swap && st.sampling.enabled) || lost);
    WipeFacts(st, swap || lost, (swap && st.sampling.enabled) || lost, i);
    KeepSettledPut(st, i, data, now, if logs then Appended(kept, Sample(data, now)) else kept, base);
  }

  lemma ShowsOneWay(s: Slot, now: int)
    ensures !(ShowsOn(s) && ShowsOff(s, now))
  {}

  lemma KeepReconcile(st: State, now: int, maxDelta: nat)
    requires Inv(st)
    ensures Inv(Reconcile(st, now, maxDelta))
  {}

  lemma KeepOff(st: State, i: Index, now: int)
    requires Inv(st)
    ensures Inv(OffAttempt(st, i, now))
  {}

  lemma KeepBegin(st: State, now: int)
    requires Inv(st) && now > CLOCK_FLOOR
    ensures Inv(BeginRound(st, now))
  {}

  lemma KeepClaim(st: State, i: Index, now: int)
    requires Inv(st)
    ensures Inv(ClaimRound(st, i, now))
  {}

  lemma KeepStop(st: State)
    requires Inv(st)
    ensures Inv(StopSampling(st))
  {}

  lemma KeepMotion(st: State, report: MotionReport, now: int, jumped: bool)
    requires Inv(st)
    ensures Inv(ReceiveMotion(st, report, now, jumped))
  {
    hide MotionTurns, MotionAfter, Wipe, Inv;
    var turns := MotionTurns(st.motion, report, now, jumped);
    KeepWipe(st, turns, turns);
    var c := Wipe(st, turns, turns);
    KeepSurroundings(c, c.vehicle, MotionAfter(st.motion, report, now, jumped));
  }

  lemma KeepSwitched(s: Slot, now: int, reason: Reason)
    requires SlotInv(s) && (reason.Admitted? ==> s.eligible && s.valid)
    ensures SlotInv(Switched(s, now, reason))
  {
    hide Measured;
  }

  lemma SwitchedFacts(s: Slot, now: int, reason: Reason)
    ensures var t := Switched(s, now, reason);
            && t.observedRound == s.observedRound && t.frame == s.frame && t.observed == s.observed
            && (s.held ==> t.held) && t.offPending == s.offPending
  {}

  /** Replace one slot, keeping its frame, its round mark and its reservation. */
  lemma KeepPowerPut(st: State, i: Index, s: Slot)
    requires Inv(st) && SlotInv(s)
    requires s.observedRound == st.slots.At(i).observedRound
    requires s.frame == st.slots.At(i).frame && s.observed == st.slots.At(i).observed
    requires st.slots.At(i).held ==> s.held
    requires st.slots.At(i).offPending ==> s.offPending
    ensures Inv(st.Put(i, s))
  {
    hide SlotInv, Timely;
    if i == 0 {} else {}
  }

  lemma KeepEnact(st: State, i: Index, now: int, reason: Reason)
    requires Inv(st) && (reason.Admitted? ==> st.slots.At(i).eligible && st.slots.At(i).valid)
    ensures Inv(Enact(st, i, now, reason))
  {
    hide Inv, SlotInv, Wipe;
    var drop := reason.Requalified? || reason.Admitted?;
    KeepWipe(st, drop, drop);
    WipeFacts(st, drop, drop, i);
    var base := Wipe(st, drop, drop);
    InvParts(base, i);
    KeepSwitched(base.slots.At(i), now, reason);
    SwitchedFacts(base.slots.At(i), now, reason);
    hide Switched;
    KeepPowerPut(base, i, Switched(base.slots.At(i), now, reason));
  }

  /** An admission needs an eligible slot with recent, usable data. */
  lemma AdmittedSlot(st: State, i: Index, now: int, maxDelta: nat, jumped: bool)
    ensures var s := st.slots.At(i);
            Decide(st, i, now, maxDelta, jumped).Admitted? ==> s.eligible && !s.held && s.Fresh(now) && s.Usable()
  {
    hide PeerObjection, KeepsHandover, IsolationReady, NonDriving;
  }

  lemma KeepRequest(st: State, i: Index, now: int, maxDelta: nat, jumped: bool)
    requires Inv(st)
    ensures Inv(RequestOn(st, i, now, maxDelta, jumped))
  {
    hide Inv, Enact, Decide, Reconcile;
    KeepReconcile(st, now, maxDelta);
    AdmittedSlot(Reconcile(st, now, maxDelta), i, now, maxDelta, jumped);
    KeepEnact(Reconcile(st, now, maxDelta), i, now, Verdict(st, i, now, maxDelta, jumped));
  }

  /** What an observation does around the slot it reports on. */
  lemma FrameFacts(st: State, i: Index, data: Frame, now: int)
    ensures var o := ObserveFrame(st, i, data, now);
            var dropped := SerialSwap(st.slots.At(i), data) || Releases(st.slots.At(i), data, now);
            && o.coordinated == st.coordinated && o.conservative == st.conservative
            && o.vehicle == st.vehicle && o.motion == st.motion
            && o.seatboxKnown == st.seatboxKnown && o.seatboxClosed == st.seatboxClosed
            && o.sampling == (if dropped then st.sampling.(round := None, pairedAt := 0, pairedId := 0)
                              else st.sampling)
            && o.slots.At(i) == Settled(st.slots.At(i), data, now).(history := o.slots.At(i).history)
            && o.slots.At(1 - i) == st.slots.At(1 - i).(history := o.slots.At(1 - i).history)
  {
    hide Read, Settled, Releases, SerialSwap, EpisodeAfter, ShowsOn, ShowsOff;
    if i == 0 {} else {}
  }

  function Marked(st: State, i: Index, id: nat): State {
    st.Put(i, st.slots.At(i).(observedRound := id))
  }

  lemma KeepMark(s: Slot, id: nat)
    requires SlotInv(s)
    ensures SlotInv(s.(observedRound := id))
  {}

  /** With neither round nor pair, only the slots and the episode matter. */
  lemma InvWithoutEvidence(st: State)
    requires SlotInv(st.slots.first) && SlotInv(st.slots.second) && EpisodeInv(st)
    requires st.sampling.round.None? && st.sampling.pairedAt == 0 && st.sampling.pairedId == 0
    ensures Inv(st)
  {
    hide SlotInv, EpisodeInv;
  }

  lemma KeepMarked(st: State, i: Index, id: nat)
    requires Inv(st)
    ensures var m := Marked(st, i, id);
            SlotInv(m.slots.first) && SlotInv(m.slots.second) && EpisodeInv(m)
  {
    hide SlotInv;
    InvParts(st, 0);
    InvParts(st, 1);
    KeepMark(st.slots.At(i), id);
    if i == 0 {} else {}
  }

  /** A mark that belongs to no open round is harmless once the pair is forgotten. */
  lemma KeepMarkCancelled(st: State, i: Index, id: nat)
    requires Inv(st)
    ensures Inv(CancelRound(Marked(st, i, id)))
    ensures !st.sampling.enabled || !st.coordinated ==> Inv(Marked(st, i, id))
  {
    hide SlotInv, EpisodeInv, Inv;
    var m := Marked(st, i, id);
    KeepMarked(st, i, id);
    InvParts(st, i);
    KeepHistory(m.slots.first, CancelRound(m).slots.first.history);
    KeepHistory(m.slots.second, CancelRound(m).slots.second.history);
    SameEpisode(m, CancelRound(m));
    InvWithoutEvidence(CancelRound(m));
    if !st.sampling.enabled || !st.coordinated {
      InvWithoutEvidence(m);
    }
  }

  lemma SameEpisode(a: State, b: State)
    requires EpisodeInv(a) && b.isolation == a.isolation
    requires b.slots.first == a.slots.first.(history := b.slots.first.history)
    requires b.slots.second == a.slots.second.(history := b.slots.second.history)
    ensures EpisodeInv(b)
  {}

  /** Two timely reads whose STATUS0 intervals lie within a second completed within three. */
  lemma PairAlignment(r: Round, p: Acquisition, q: Acquisition)
    requires Timely(r, p) && Timely(r, q) && Span(p, q) <= PAIR_SKEW
    ensures -MAX_SKEW <= p.complete - q.complete <= MAX_SKEW
    ensures Min(p.start, q.start) >= r.openedAt
  {}

  lemma KeepPair(st: State, r: Round, now: int)
    requires SlotInv(st.slots.first) && SlotInv(st.slots.second) && EpisodeInv(st)
    requires Pairs(st, r, now) && Timely(r, r.samples.first) && Timely(r, r.samples.second)
    requires st.sampling.enabled && st.coordinated && 0 < r.id <= st.sampling.next && r.openedAt > 0
    ensures Inv(WithPair(st, r))
  {
    hide SlotInv, EpisodeInv, Timely, Span, Appended;
    PairAlignment(r, r.samples.first, r.samples.second);
    var w := WithPair(st, r);
    KeepHistory(st.slots.first, w.slots.first.history);
    KeepHistory(st.slots.second, w.slots.second.history);
    SameEpisode(st, w);
  }

  lemma KeepStored(st: State, i: Index, a: Acquisition)
    requires Inv(st) && st.sampling.round.Some?
    requires st.slots.At(i).frame == a.data && st.sampling.round.value.claimed.At(i)
    requires Timely(st.sampling.round.value, a)
    ensures var r := st.sampling.round.value;
            var m := Marked(st, i, r.id);
            Inv(m.(sampling := m.sampling.(round := Some(Stored(r, i, a)))))
  {
    hide SlotInv, EpisodeInv;
    var r := st.sampling.round.value;
    var m := Marked(st, i, r.id);
    KeepMarked(st, i, r.id);
    SameEpisode(m, m.(sampling := m.sampling.(round := Some(Stored(r, i, a)))));
    if i == 0 {} else {}
  }

  lemma KeepDeliver(st: State, i: Index, a: Acquisition)
    requires Inv(st) && st.sampling.round.Some?
    requires st.slots.At(i).frame == a.data && st.sampling.round.value.claimed.At(i)
    ensures Inv(Deliver(Marked(st, i, st.sampling.round.value.id), i, a))
  {
    hide Inv, SlotInv, EpisodeInv, Timely, Pairs, CancelRound, WithPair, MayRun;
    var r := st.sampling.round.value;
    var m := Marked(st, i, r.id);
    KeepMarkCancelled(st, i, r.id);
    KeepMarked(st, i, r.id);
    InvParts(st, i);
    if Completes(m, i, a) {
      TimelyStored(st, i, a);
      KeepPair(m, Stored(r, i, a), a.complete);
    } else if Timely(r, a) {
      KeepStored(st, i, a);
    }
  }

  lemma TimelyStored(st: State, i: Index, a: Acquisition)
    requires RoundInv(st) && st.sampling.round.Some? && Timely(st.sampling.round.value, a)
    requires st.sampling.round.value.samples.At(1 - i).complete != 0
    ensures var r := Stored(st.sampling.round.value, i, a);
            Timely(r, r.samples.first) && Timely(r, r.samples.second)
  {
    if i == 0 {} else {}
  }

  lemma KeepAcquire(st: State, i: Index, id: nat, a: Acquisition)
    requires Inv(st) && Allowed(st, AcquireEvent(i, id, a))
    ensures Inv(ObserveAcquisition(st, i, id, a))
  {
    hide Inv, ObserveFrame, Deliver, CancelRound, Settled, Releases, SerialSwap;
    var seen := ObserveFrame(st, i, a.data, a.complete);
    KeepFrame(st, i, a.data, a.complete);
    FrameFacts(st, i, a.data, a.complete);
    SettledPower(st.slots.At(i), a.data, a.complete);
    KeepMarkCancelled(seen, i, id);
    if Belongs(Marked(seen, i, id), i, id) {
      KeepDeliver(seen, i, a);
    }
  }

  // ----- Every reachable state -----

  /** Every allowed step of the coordinator keeps the invariant. */
  lemma StepKeepsInv(st: State, e: Event)
    requires Inv(st) && Allowed(st, e)
    ensures Inv(Step(st, e))
  {
    hide Inv, SetRole, SetVehicle, SetSeatbox, Tag, FailAcquisition, ObserveAbsent, ObserveFrame, ObserveAcquisition,
         RequestOn, Reconcile, OffAttempt, CorrectiveOff, BeginRound, ClaimRound, StopSampling, ReceiveMotion;
    match e
    case SetRoleEvent(i, eligible) => KeepRole(st, i, eligible);
    case SetVehicleEvent(v, now, jumped) => KeepVehicle(st, v, now, jumped);
    case SetSeatboxEvent(closed) => KeepSeatbox(st, closed);
    case TagEvent(i, uid) => KeepTag(st, i, uid);
    case FailEvent(i) => KeepFail(st, i);
    case AbsentEvent(i, now) => KeepAbsent(st, i, now);
    case ObserveEvent(i, data, now) => KeepFrame(st, i, data, now);
    case AcquireEvent(i, id, sample) => KeepAcquire(st, i, id, sample);
    case RequestOnEvent(i, now, maxDelta, jumped) => KeepRequest(st, i, now, maxDelta, jumped);
    case ShouldIsolateEvent(i, now, maxDelta) => KeepReconcile(st, now, maxDelta);
    case OffEvent(i, now) => KeepOff(st, i, now);
    case CorrectiveOffEvent(i, now) => KeepOff(st, i, now);
    case BeginRoundEvent(now) => KeepBegin(st, now);
    case ClaimRoundEvent(i, now) => KeepClaim(st, i, now);
    case StopSamplingEvent => KeepStop(st);
    case MotionEvent(report, now, jumped) => KeepMotion(st, report, now, jumped);
    case ResetMotionEvent => KeepSurroundings(st, st.vehicle, ResetMotion(st).motion);
  }

  /** Nothing has happened yet: no power, no episode, no evidence. */
  ghost predicate Untouched(st: State) {
    && SlotInv(st.slots.first) && !st.slots.first.held && !st.slots.first.valid && st.slots.first.written == 0
    && SlotInv(st.slots.second) && !st.slots.second.held && !st.slots.second.valid && st.slots.second.written == 0
    && !st.slots.first.haveFrame && !st.slots.second.haveFrame
    && st.slots.first.history == [] && st.slots.second.history == []
    && st.isolation.None? && st.sampling.round.None? && st.sampling.pairedAt == 0 && st.sampling.pairedId == 0
    && !st.motion.stopped && st.motion.at == 0 && st.sampling.next == 0 && !st.seatboxKnown
  }

  lemma ConfiguredUntouched(st: State, r: Reader)
    requires Untouched(st)
    ensures Untouched(Configured(st, r))
  {
    if r.index == 0 {} else if r.index == 1 {}
  }

  lemma {:induction false} ConfiguredAllUntouched(readers: seq<Reader>)
    ensures Untouched(ConfiguredAll(BLANK_STATE, readers))
  {
    hide Configured;
    if readers != [] {
      ConfiguredAllUntouched(readers[..|readers| - 1]);
      ConfiguredUntouched(ConfiguredAll(BLANK_STATE, readers[..|readers| - 1]), readers[|readers| - 1]);
    }
  }

  lemma InitialUntouched(readers: seq<Reader>, conservative: bool, sampling: bool, motion: bool)
    ensures Untouched(Initial(readers, conservative, sampling, motion))
    ensures Inv(Initial(readers, conservative, sampling, motion))
  {
    hide SlotInv;
    ConfiguredAllUntouched(readers);
    InvWithoutEvidence(Initial(readers, conservative, sampling, motion));
  }

  lemma StartUntouched(run: Run)
    requires IsRun(run)
    ensures Untouched(run.states[0]) && Inv(run.states[0])
  {
    hide Initial, Untouched, Inv, StepAt;
    var readers, conservative, sampling, motion :|
      run.states[0] == Initial(readers, conservative, sampling, motion);
    InitialUntouched(readers, conservative, sampling, motion);
  }

  /** Every reachable state satisfies the invariant. */
  lemma {:induction false} ReachableInv(run: Run, n: nat)
    requires IsRun(run) && n <= |run.events|
    ensures Inv(run.states[n])
  {
    hide Inv, Step, Allowed;
    if n == 0 {
      StartUntouched(run);
    } else {
      ReachableInv(run, n - 1);
      assert StepAt(run, n - 1);
      StepKeepsInv(run.states[n - 1], run.events[n - 1]);
    }
  }
}

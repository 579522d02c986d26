/** `packAdmission` as the service runs it: one object, updated in place, whose every public
    method is proved to be the step of the same name. */
module Coordinator {
  import opened Domain
  import opened Runs
  import P = Protocol
  import Window
  import Invariant
  import Policies
  import Decided
  import Fields
  import Rounds
  import Pairing

  class IsolationEpisode {
    var survivor: Index
    var victim: Index
    var attempted: bool
    var handover: bool
    var offConfirmed: bool

    ghost function Model(): Episode
      reads this
    {
      Episode(survivor, victim, attempted, handover, offConfirmed)
    }

    constructor (e: Episode)
      ensures Model() == e
    {
      survivor, victim := e.survivor, e.victim;
      attempted, handover, offConfirmed := e.attempted, e.handover, e.offConfirmed;
    }
  }

  class SamplingRound {
    var id: nat
    var openedAt: int
    var claimed: Pair<bool>
    var samples: Pair<Acquisition>

    ghost function Model(): Round
      reads this
    {
      Round(id, openedAt, claimed, samples)
    }

    constructor (r: Round)
      ensures Model() == r
    {
      id, openedAt, claimed, samples := r.id, r.openedAt, r.claimed, r.samples;
    }
  }

  /** `stable`: one pass for the load limit and the voltage range. */
  method IsStable(s: Slot, now: int) returns (b: bool)
    ensures b == s.Stable(now)
  {
    var h := s.history;
    if !s.Fresh(now) || |h| < 3 || h[|h| - 1].at - h[0].at < STABLE_TIME {
      return false;
    }
    var minV, maxV := s.frame.voltage, s.frame.voltage;
    ghost var lo, hi := |h|, |h|;
    for k := 0 to |h|
      invariant 0 <= lo <= |h| && s.WindowVoltage(lo) == minV
      invariant 0 <= hi <= |h| && s.WindowVoltage(hi) == maxV
      invariant minV <= s.frame.voltage <= maxV
      invariant forall j | 0 <= j < k :: minV <= h[j].data.voltage <= maxV
      invariant forall j | 0 <= j < k :: -MAX_CURRENT <= h[j].data.current <= MAX_CURRENT
    {
      if h[k].data.current < -MAX_CURRENT || h[k].data.current > MAX_CURRENT {
        return false;
      }
      if h[k].data.voltage < minV {
        minV, lo := h[k].data.voltage, k;
      }
      if h[k].data.voltage > maxV {
        maxV, hi := h[k].data.voltage, k;
      }
    }
    b := maxV - minV <= VOLTAGE_SPAN;
    assert b ==> forall j, k | 0 <= j <= |h| && 0 <= k <= |h| ::
                   s.WindowVoltage(j) - s.WindowVoltage(k) <= VOLTAGE_SPAN;
    assert !b ==> s.WindowVoltage(hi) - s.WindowVoltage(lo) > VOLTAGE_SPAN;
  }

  /** The nested loop over both windows in conservative qualification. */
  method CompareWindows(a: seq<Sample>, b: seq<Sample>, limit: nat) returns (agree: bool)
    ensures agree == P.WindowsAgree(a, b, limit)
  {
    for j := 0 to |a|
      invariant forall m, k | 0 <= m < j && 0 <= k < |b| :: Distance(a[m].data.voltage, b[k].data.voltage) <= limit
    {
      for k := 0 to |b|
        invariant forall n | 0 <= n < k :: Distance(a[j].data.voltage, b[n].data.voltage) <= limit
      {
        if Distance(a[j].data.voltage, b[k].data.voltage) > limit {
          return false;
        }
      }
    }
    return true;
  }

  /** `replaceIdentity`: start from an empty slot and carry the power command over. */
  function ReplaceIdentity(s: Slot, uid: string): (r: Slot)
    ensures r == s.Renamed(uid, true)
  {
    EMPTY_SLOT.(
      monitored := s.monitored, eligible := s.eligible, powerTracked := s.powerTracked, uid := uid,
      held := s.held, onAt := s.onAt, lastOnAt := s.lastOnAt, offPending := s.offPending, offAt := s.offAt,
      identityUncertain := s.held,
      requiresAdmission := s.requiresAdmission || s.uid != "" || s.serial != "" || s.haveFrame)
  }

  lemma RetaggedAnew(s: Slot, uid: string, parked: bool)
    requires s.uid != uid
    ensures P.Retagged(s, uid, parked) == ReplaceIdentity(s, uid).(absent := false)
  {}

  lemma RetaggedAgain(s: Slot, uid: string, parked: bool)
    requires s.uid == uid
    ensures P.Retagged(s, uid, parked)
            == s.(valid := false, haveFrame := false, written := 0, history := [], absent := false,
                  requiresAdmission := s.requiresAdmission || parked)
  {}

  lemma WipeMotion(st: State, m: Motion, b: bool, n: Motion)
    ensures P.Wipe(st.(motion := m), b, b).(motion := n) == P.Wipe(st, b, b).(motion := n)
  {}

  lemma VehicleCases(st: State, v: Vehicle, now: int, jumped: bool)
    ensures var m, after := P.Checked(st.motion, jumped), P.SetVehicle(st, v, now, jumped);
            if !P.VehicleShift(st.vehicle, v) then after == st.(vehicle := v)
            else if P.StoppedMotionFresh(st.motion, now, jumped) then after == st.(vehicle := v, motion := m)
            else after == P.DropEvidence(st.(motion := m)).(vehicle := v)
  {
    hide P.Wipe, P.VehicleShift, P.StoppedMotionFresh, P.Unmoved;
    var m := P.Checked(st.motion, jumped);
    Invariant.WipeNothing(st);
    WipeMotion(st, m, true, m);
    WipeKeepsMotion(st.(motion := m));
  }

  lemma WipeKeepsMotion(st: State)
    ensures P.Wipe(st, true, true).motion == st.motion
  {}

  lemma TunedCheck(m: Motion, report: MotionReport)
    ensures P.Tuned(m, report).lastCheck == m.lastCheck
  {}

  lemma ReceiveCases(st: State, report: MotionReport, now: int, jumped: bool)
    ensures var c, after := P.Checked(st.motion, jumped).(lastCheck := now), P.ReceiveMotion(st, report, now, jumped);
            && (!P.Heard(c, report) ==> after == st.(motion := P.Unmoved(c)))
            && (P.Heard(c, report) && !P.Dated(report, now) ==> after == st.(motion := P.Unmoved(P.Tuned(c, report))))
            && (P.Heard(c, report) && P.Dated(report, now) ==>
                  var m := P.Tuned(c, report);
                  var turns := P.Turns(m, report.Stopped(), report.observedAt.value, now);
                  after == P.Wipe(st, turns, turns)
                           .(motion := P.Moved(m, report.Stopped(), report.observedAt.value, now)))
  {
    hide P.Wipe, P.Tuned, P.Moved, P.Turns, P.Checked, P.Unmoved;
    Invariant.WipeNothing(st);
  }

  /** Polling does not depend on evidence. */
  lemma WipeNeedsPoll(st: State, unpair: bool, clear: bool)
    ensures var c := P.Wipe(st, unpair, clear);
            && P.NeedsPoll(c) == P.NeedsPoll(st) && c.sampling.next == st.sampling.next
            && c.sampling.enabled == st.sampling.enabled && c.sampling.stopped == st.sampling.stopped
            && c.slots.first.monitored == st.slots.first.monitored
            && c.slots.second.monitored == st.slots.second.monitored
  {}

  /** Whose frame is it: a changed serial replaces the identity. */
  method Identify(given: Slot, data: Frame) returns (s: Slot)
    ensures s == P.Identified(given, data)
  {
    hide P.Identified, P.SerialSwap;
    var t := given.(powerTracked := given.powerTracked || data.state.Active?);
    if P.SerialSwap(given, data) {
      s := ReplaceIdentity(t, t.uid).(serial := data.serial);
      IdentifiedAnew(given, data);
    } else {
      s := t.(serial := if data.serial != "" then data.serial else t.serial);
      IdentifiedAgain(given, data);
    }
  }

  lemma IdentifiedAnew(s: Slot, data: Frame)
    requires P.SerialSwap(s, data)
    ensures var t := s.(powerTracked := s.powerTracked || data.state.Active?);
            P.Identified(s, data) == ReplaceIdentity(t, t.uid).(serial := data.serial)
  {
    var t := s.(powerTracked := s.powerTracked || data.state.Active?);
    assert t.Renamed(t.uid, true) == ReplaceIdentity(t, t.uid);
  }

  lemma IdentifiedAgain(s: Slot, data: Frame)
    requires !P.SerialSwap(s, data)
    ensures var t := s.(powerTracked := s.powerTracked || data.state.Active?);
            P.Identified(s, data) == t.(serial := if data.serial != "" then data.serial else t.serial)
  {
    var t := s.(powerTracked := s.powerTracked || data.state.Active?);
    assert t.Renamed(t.uid, false) == t;
  }

  /** The first half of `observeLocked`: identity, payload change and validity. */
  method ReadFrame(given: Slot, data: Frame, now: int) returns (s: Slot)
    ensures s == P.Read(given, data, now)
  {
    hide P.Identified, FrameChanged, Measured;
    s := Identify(given, data);
    var written := if s.haveFrame && FrameChanged(s.frame, data) then now else s.written;
    var valid := Measured(data) && written != 0;
    s := s.(observedRound := 0, written := written, frame := data, haveFrame := true, observed := now, absent := false,
            valid := valid, history := if valid then s.history else []);
  }

  /** `ObserveFrame` in the order in which its parts take effect. */
  lemma ObservedInOrder(st: State, i: Index, data: Frame, now: int)
    ensures var s := st.slots.At(i);
            var read := P.Read(s, data, now);
            var on, off := read.valid && data.state.Active?, read.valid && !data.state.Active? && read.OffProven(now);
            var swap, lost := P.SerialSwap(s, data), off && read.held;
            var kept := if lost then [] else read.history;
            var logs := read.valid && !(st.sampling.enabled && st.coordinated);
            P.ObserveFrame(st, i, data, now)
            == Surrounding(st, i, swap, lost, on, off).Put(i, P.Resolved(read, on, off)
                       .(history := if logs then P.Appended(kept, Sample(data, now)) else kept))
  {
    hide P.Wipe, P.Read, P.EpisodeAfter, P.SerialSwap, P.Appended, P.Resolved;
    Invariant.ReadPower(st.slots.At(i), data, now);
  }

  /** The part of an observation that is not about the slot itself. */
  function Surrounding(st: State, i: Index, swap: bool, lost: bool, on: bool, off: bool): State {
    P.Wipe(st, swap || lost, (swap && st.sampling.enabled) || lost)
      .(isolation := P.EpisodeAfter(st.isolation, i, on, off))
  }

  /** One sample of a pair enters its slot's window. */
  function Logged(s: Slot, p: Acquisition): Slot {
    s.(history := P.Appended(s.history, Sample(p.data, p.start)))
  }

  /** What becomes of a stored delivery. */
  datatype Outcome = Cancelled(single: bool) | Awaiting | Joined

  function Judged(at: State, i: Index, a: Acquisition): Outcome
    requires at.sampling.round.Some?
  {
    if !P.Sound(at, i, a) then Cancelled(false)
    else if !P.MayRun(at.slots.At(1 - i)) then Cancelled(true)
    else if at.sampling.round.value.samples.At(1 - i).complete == 0 then Awaiting
    else if !P.Pairs(at, at.sampling.round.value, a.complete) then Cancelled(false)
    else Joined
  }

  function Carried(at: State, outcome: Outcome): State
    requires at.sampling.round.Some?
  {
    match outcome
    case Cancelled(_) => P.CancelRound(at)
    case Awaiting => at
    case Joined => P.WithPair(at, at.sampling.round.value)
  }

  /** `Deliver` seen from the state in which the sample is already stored. */
  lemma DeliverCases(st: State, at: State, i: Index, a: Acquisition)
    requires st.sampling.round.Some?
    requires at == st.(sampling := st.sampling.(round := Some(P.Stored(st.sampling.round.value, i, a))))
    ensures P.Deliver(st, i, a) == Carried(at, Judged(at, i, a))
    ensures (Judged(at, i, a).Joined? || Judged(at, i, a) == Cancelled(true))
            == (P.Sound(st, i, a) && (!P.MayRun(st.slots.At(1 - i)) || P.Completes(st, i, a)))
  {
    StoredElsewhere(st, at, i, a);
    hide P.Wipe, P.Pairs, P.Sound, P.MayRun, P.WithPair, P.CancelRound;
  }

  lemma StoredElsewhere(st: State, at: State, i: Index, a: Acquisition)
    requires st.sampling.round.Some?
    requires at == st.(sampling := st.sampling.(round := Some(P.Stored(st.sampling.round.value, i, a))))
    ensures P.Sound(at, i, a) == P.Sound(st, i, a)
    ensures P.CancelRound(at) == P.CancelRound(st)
    ensures var r := at.sampling.round.value;
            && r.samples.At(1 - i) == st.sampling.round.value.samples.At(1 - i)
            && P.Pairs(at, r, a.complete) == P.Pairs(st, r, a.complete)
            && P.WithPair(at, r) == P.WithPair(st, r)
  {}

  lemma CandidateMarked(st: State, marked: State, i: Index, id: nat)
    requires marked == st.Put(i, st.slots.At(i).(observedRound := id))
    ensures P.HasInactiveCandidate(marked) == P.HasInactiveCandidate(st)
    ensures marked.slots.At(i).valid == st.slots.At(i).valid
  {}

  lemma CandidateDelivered(st: State, i: Index, a: Acquisition)
    requires st.sampling.round.Some?
    ensures P.HasInactiveCandidate(P.Deliver(st, i, a)) == P.HasInactiveCandidate(st)
  {
    hide P.Wipe, P.WithPair, P.HasInactiveCandidate, P.Completes, P.Sound, P.MayRun;
    var r := P.Stored(st.sampling.round.value, i, a);
    CandidateWiped(st, true, st.sampling.enabled);
    CandidatePaired(st, r);
    CandidateStored(st, Some(r));
  }

  lemma CandidateWiped(st: State, unpair: bool, clear: bool)
    ensures P.HasInactiveCandidate(P.Wipe(st, unpair, clear)) == P.HasInactiveCandidate(st)
  {}

  lemma CandidatePaired(st: State, r: Round)
    ensures P.HasInactiveCandidate(P.WithPair(st, r)) == P.HasInactiveCandidate(st)
  {}

  lemma CandidateStored(st: State, round: Option<Round>)
    ensures P.HasInactiveCandidate(st.(sampling := st.sampling.(round := round))) == P.HasInactiveCandidate(st)
  {}

  lemma CandidateFiled(st: State, i: Index, id: nat, a: Acquisition)
    ensures P.HasInactiveCandidate(P.Filed(st, i, id, a)) == P.HasInactiveCandidate(st)
  {
    hide P.Wipe, P.Deliver, P.HasInactiveCandidate;
    CandidateWiped(st, true, st.sampling.enabled);
    if st.sampling.round.Some? {
      CandidateDelivered(st, i, a);
    }
  }

  /** A delivery asks for a new decision only while a slot waits unpowered, and then always when it
      completes a pair or first confirms its tag. */
  lemma PromptMeaning(st: State, i: Index, id: nat, a: Acquisition)
    ensures var t := P.ObserveAcquisition(st, i, id, a);
            && (P.PromptsDecision(st, i, id, a) ==> P.HasInactiveCandidate(t))
            && (P.HasInactiveCandidate(t) && t.sampling.pairedId == id != 0 && st.sampling.pairedId != id ==>
                  P.PromptsDecision(st, i, id, a))
            && (P.HasInactiveCandidate(t) && st.slots.At(i).written == 0 && t.slots.At(i).valid ==>
                  P.PromptsDecision(st, i, id, a))
  {
    hide P.Noted, P.HasInactiveCandidate, P.Filed, P.Concludes;
    var noted := P.Noted(st, i, id, a);
    CandidateFiled(noted, i, id, a);
    Pairing.NotedKept(st, i, id, a);
    FiledFacts(noted, i, id, a);
  }

  /** A delivery asks for a new decision exactly when a slot then waits unpowered and it first confirms
      its tag, completes a pair, or is a good delivery of a slot that needs no partner. */
  lemma PromptExactly(st: State, i: Index, id: nat, a: Acquisition)
    requires Invariant.Inv(st)
    ensures P.PromptsDecision(st, i, id, a) <==>
              && P.HasInactiveCandidate(P.ObserveAcquisition(st, i, id, a))
              && (|| (st.slots.At(i).written == 0 && Fields.Trusted(st.slots.At(i), a.data, a.complete))
                  || (&& Pairing.PairedMode(st) && Rounds.Delivers(st, i, id, a) && Rounds.Good(st, i, a)
                      && (!Rounds.Partnered(st.slots.At(1 - i)) || Rounds.Matches(st, i, a))))
  {
    hide P.Noted, P.HasInactiveCandidate, P.Filed, Invariant.Inv, Rounds.Good, Rounds.Matches, Rounds.Partnered,
      Rounds.Delivers, Fields.Trusted;
    var noted := P.Noted(st, i, id, a);
    CandidateFiled(noted, i, id, a);
    Rounds.NotedFacts(st, i, id, a);
    if Pairing.PairedMode(st) {
      Rounds.DeliveredExactly(st, i, id, a);
    }
    NoConclusion(noted, i, id, a);
    hide P.Concludes;
  }

  lemma NoConclusion(st: State, i: Index, id: nat, a: Acquisition)
    ensures P.Concludes(st, i, id, a) ==> Pairing.PairedMode(st)
  {}

  /** Filing pairs only what concludes, and does not touch validity. */
  lemma FiledFacts(st: State, i: Index, id: nat, a: Acquisition)
    ensures var t := P.Filed(st, i, id, a);
            && t.slots.At(i).valid == st.slots.At(i).valid
            && (t.sampling.pairedId != 0 && !P.Concludes(st, i, id, a) ==> t.sampling.pairedId == st.sampling.pairedId)
  {
    hide P.CancelRound, P.WithPair, P.Sound, P.Pairs, P.MayRun;
    CancelFacts(st, i);
    if st.sampling.round.Some? {
      PairFacts(st, P.Stored(st.sampling.round.value, i, a), i);
    }
  }

  lemma CancelFacts(st: State, i: Index)
    ensures var t := P.CancelRound(st);
            t.slots.At(i).valid == st.slots.At(i).valid && t.sampling.pairedId == 0
  {}

  lemma PairFacts(st: State, r: Round, i: Index)
    ensures P.WithPair(st, r).slots.At(i).valid == st.slots.At(i).valid
  {}

  lemma StepKeeps(st: State, e: Event)
    ensures Invariant.Inv(st) && Allowed(st, e) ==> Invariant.Inv(Step(st, e))
  {
    hide Invariant.Inv, Step, Allowed;
    if Invariant.Inv(st) && Allowed(st, e) {
      Invariant.StepKeepsInv(st, e);
    }
  }

  /** Record an OFF command on a slot that may be powered. */
  function Command(s: Slot, now: int): (r: Slot)
    ensures r == P.Commanded(s, now)
  {
    if s.held && (!s.offPending || s.lastOnAt > s.offAt) then s.(offPending := true, offAt := now) else s
  }

  /** What a decision writes to its slot. */
  function Switch(s: Slot, now: int, reason: Reason): (r: Slot)
    ensures r == P.Switched(s, now, reason)
  {
    if reason.Admitted? then s.(held := true, onAt := now, lastOnAt := now, requiresAdmission := false)
    else if reason.Granted() then s.(lastOnAt := now, requiresAdmission := false)
    else s
  }

  lemma WipeEpisode(st: State, isolation: Option<Episode>)
    ensures P.DropEvidence(st.(isolation := isolation)) == P.DropEvidence(st).(isolation := isolation)
  {}

  /** A copy for previews. */
  function Snapshot(st: State): State {
    st.(seatboxKnown := false, seatboxClosed := false)
  }

  /** The slot as if it were not powered, for the question whether it could join. */
  function Unpowered(s: Slot): Slot {
    s.(held := false, active := false, onAt := 0)
  }

  /** The state in which a preview asks its question. */
  function Previewed(st: State, i: Index, joining: bool, mode: bool): State {
    Supposed(Snapshot(st), i, joining, mode)
  }

  function Supposed(st: State, i: Index, joining: bool, mode: bool): State {
    var c := st.(conservative := mode);
    if joining then c.Put(i, Unpowered(c.slots.At(i))) else c
  }

  /** No decision looks at the seatbox fields. */
  lemma VerdictIgnoresSeatbox(a: State, b: State, i: Index, now: int, maxDelta: nat, jumped: bool)
    requires a == Snapshot(b)
    ensures P.Verdict(a, i, now, maxDelta, jumped) == P.Verdict(b, i, now, maxDelta, jumped)
  {
    ReconcileIgnoresSeatbox(a, b, now, maxDelta);
    hide P.Reconcile;
    DecideIgnoresSeatbox(P.Reconcile(a, now, maxDelta), P.Reconcile(b, now, maxDelta), i, now, maxDelta, jumped);
  }

  /** A preview in the live mode that supposes nothing decides as the live state does. */
  lemma PreviewFaithful(st: State, i: Index, now: int, maxDelta: nat, joining: bool, mode: bool, jumped: bool)
    ensures !joining && mode == st.conservative ==>
              P.Verdict(Previewed(st, i, joining, mode), i, now, maxDelta, jumped)
              == P.Verdict(st, i, now, maxDelta, jumped)
  {
    hide P.Verdict;
    VerdictIgnoresSeatbox(Snapshot(st), st, i, now, maxDelta, jumped);
    assert !joining && mode == st.conservative ==> Previewed(st, i, joining, mode) == Snapshot(st);
  }

  /** A joining preview supposes that its slot is not powered, sets the mode, and supposes nothing else. */
  lemma PreviewSupposes(st: State, i: Index, joining: bool, mode: bool)
    ensures var c, s := Previewed(st, i, joining, mode), st.slots.At(i);
            && c.conservative == mode && c.slots.At(1 - i) == st.slots.At(1 - i)
            && (joining ==> !c.slots.At(i).held && !c.slots.At(i).active && c.slots.At(i).onAt == 0)
            && c.slots.At(i).(held := s.held, active := s.active, onAt := s.onAt) == s
            && (!joining ==> c.slots == st.slots)
            && c == st.(conservative := mode, slots := c.slots, seatboxKnown := false, seatboxClosed := false)
  {
    if i == 0 {} else {}
  }

  /** A joining preview never answers with the permission of a supply that is already on. */
  lemma JoiningIsAdmission(st: State, i: Index, now: int, maxDelta: nat, mode: bool, jumped: bool)
    ensures var r := P.Verdict(Previewed(st, i, true, mode), i, now, maxDelta, jumped);
            r.Granted() ==> r == Admitted
  {
    hide P.Verdict, Previewed;
    PreviewSupposes(st, i, true, mode);
    var c := Previewed(st, i, true, mode);
    if P.Verdict(c, i, now, maxDelta, jumped).Granted() {
      Fields.GrantReserves(c, i, now, maxDelta, jumped);
    }
  }

  /** Among the previews of joining a held, monitored peer, strict mode never says yes where baseline says no. */
  lemma StrictPreviewImpliesBaseline(st: State, i: Index, now: int, maxDelta: nat, jumped: bool)
    requires st.slots.At(1 - i).held && st.slots.At(1 - i).monitored
    requires P.Verdict(Previewed(st, i, true, true), i, now, maxDelta, jumped).Granted()
    ensures P.Verdict(Previewed(st, i, true, false), i, now, maxDelta, jumped)
            == P.Verdict(Previewed(st, i, true, true), i, now, maxDelta, jumped)
  {
    hide P.Verdict;
    var c := Previewed(st, i, true, true);
    assert Policies.InMode(c, true) == c && Policies.InMode(c, false) == Previewed(st, i, true, false);
    Policies.StrictRefinesBaseline(c, i, now, maxDelta, jumped);
  }

  lemma ReconcileIgnoresSeatbox(a: State, b: State, now: int, maxDelta: nat)
    requires a == Snapshot(b)
    ensures P.Reconcile(a, now, maxDelta) == Snapshot(P.Reconcile(b, now, maxDelta))
  {
    hide Slot.Usable, Slot.Fresh, Slot.Stable, Slot.KnownAbsent, NonDriving;
  }

  lemma DecideIgnoresSeatbox(a: State, b: State, i: Index, now: int, maxDelta: nat, jumped: bool)
    requires a == Snapshot(b)
    ensures P.Decide(a, i, now, maxDelta, jumped) == P.Decide(b, i, now, maxDelta, jumped)
  {
    IsolationIgnoresSeatbox(a, b, i, now);
    QualifyIgnoresSeatbox(a, b, i, now, maxDelta, jumped);
    hide P.KeepsHandover, P.IsolationReady, P.Qualify;
  }

  lemma IsolationIgnoresSeatbox(a: State, b: State, i: Index, now: int)
    requires a == Snapshot(b)
    ensures P.IsolationReady(a, now) == P.IsolationReady(b, now)
    ensures P.KeepsHandover(a, i, now) == P.KeepsHandover(b, i, now)
  {
    hide Slot.Usable, Slot.Fresh, Slot.Stable, Slot.KnownAbsent, NonDriving;
  }

  lemma QualifyIgnoresSeatbox(a: State, b: State, i: Index, now: int, maxDelta: nat, jumped: bool)
    requires a == Snapshot(b)
    ensures P.Qualify(a, i, now, maxDelta, jumped) == P.Qualify(b, i, now, maxDelta, jumped)
  {
    PeerIgnoresSeatbox(a, b, i, now, maxDelta, jumped);
    hide P.PeerObjection, Slot.Usable, Slot.Fresh, NonDriving;
  }

  lemma PeerIgnoresSeatbox(a: State, b: State, i: Index, now: int, maxDelta: nat, jumped: bool)
    requires a == Snapshot(b)
    ensures P.PeerObjection(a, i, now, maxDelta, jumped) == P.PeerObjection(b, i, now, maxDelta, jumped)
  {
    JoinIgnoresSeatbox(a, b, i, now, maxDelta, jumped);
    assert P.SelectionObjection(a, i) == P.SelectionObjection(b, i);
    hide P.JoinObjection, P.SelectionObjection, Slot.Usable, Slot.Fresh, Slot.KnownAbsent, P.MayRun;
  }

  lemma JoinIgnoresSeatbox(a: State, b: State, i: Index, now: int, maxDelta: nat, jumped: bool)
    requires a == Snapshot(b)
    ensures P.JoinObjection(a, i, now, maxDelta, jumped) == P.JoinObjection(b, i, now, maxDelta, jumped)
  {
    hide Slot.Stable, Slot.Depleted, NonDriving, P.WindowsAgree;
  }

  class PackAdmission {
    var coordinated: bool
    var conservative: bool
    var isolation: IsolationEpisode?
    var vehicle: Vehicle
    const slots: array<Slot>
    var samplingEnabled: bool
    var samplingStopped: bool
    var nextRound: nat
    var round: SamplingRound?
    var pairedAt: int
    var pairedId: nat
    var motion: Motion
    var seatboxKnown: bool
    var seatboxClosed: bool

    ghost function Repr(): set<object>
      reads this
    {
      {this, slots}
      + (if isolation == null then {} else {isolation as object})
      + (if round == null then {} else {round as object})
    }

    ghost predicate Valid() {
      slots.Length == 2
    }

    ghost function Model(): State
      requires Valid()
      reads Repr()
    {
      State(coordinated, conservative, if isolation == null then None else Some(isolation.Model()), vehicle,
            Pair(slots[0], slots[1]),
            Sampling(samplingEnabled, samplingStopped, nextRound, if round == null then None else Some(round.Model()),
                     pairedAt, pairedId),
            motion, seatboxKnown, seatboxClosed)
    }

    /** Write one slot back. */
    method Store(index: Index, s: Slot)
      requires Valid()
      modifies slots
      ensures Model() == old(Model()).Put(index, s)
    {
      slots[index] := s;
    }

    // ----- Sampling rounds -----

    method ClearHistories()
      requires Valid()
      modifies slots
      ensures slots[0] == P.Clear(old(slots[0]), true) && slots[1] == P.Clear(old(slots[1]), true)
    {
      for i := 0 to 2
        invariant forall j | 0 <= j < 2 :: slots[j] == P.Clear(old(slots[j]), j < i)
      {
        slots[i] := slots[i].(history := []);
      }
    }

    method CancelRound()
      requires Valid()
      modifies this`round, this`pairedAt, this`pairedId, slots
      ensures Model() == P.CancelRound(old(Model()))
      ensures round == null
    {
      round := null;
      pairedAt, pairedId := 0, 0;
      if samplingEnabled {
        ClearHistories();
      }
    }

    method DropEvidence()
      requires Valid()
      modifies this`round, this`pairedAt, this`pairedId, slots
      ensures Model() == P.DropEvidence(old(Model()))
      ensures round == null
    {
      CancelRound();
      ClearHistories();
    }
  
    method NeedsPoll() returns (b: bool)
      requires Valid()
      ensures b == P.NeedsPoll(Model())
    {
      if !coordinated {
        b := false;
      } else if samplingEnabled {
        b := slots[0].monitored && slots[1].monitored && (slots[0].eligible || slots[1].eligible);
      } else {
        b := NonDriving(vehicle) && (P.WantsPoll(slots[0]) || P.WantsPoll(slots[1]));
      }
    }

    method BeginRound(now: int) returns (id: nat)
      requires Valid()
      modifies Repr()
      ensures Valid() && fresh(Repr() - old(Repr()))
      ensures Model() == P.BeginRound(old(Model()), now)
      ensures id == if P.Opens(old(Model()), now) then old(nextRound) + 1 else 0
    {
      hide P.Wipe, P.NeedsPoll;
      ghost var st := Model();
      Invariant.WipeNothing(st);
      id := 0;
      if round != null && now - round.openedAt <= ROUND_DEADLINE {
        assert P.OpenRound(st, now);
      } else {
        ghost var drop := st.sampling.round.Some?;
        ghost var c := P.Wipe(st, drop, drop && st.sampling.enabled);
        if round != null {
          CancelRound();
        }
        assert Model() == c;
        WipeNeedsPoll(st, drop, drop && st.sampling.enabled);
        var poll := NeedsPoll();
        if samplingEnabled && !samplingStopped && slots[0].monitored && slots[1].monitored && poll {
          id := OpenRound(now);
        }
      }
    }

    method OpenRound(now: int) returns (id: nat)
      requires Valid()
      modifies this`nextRound, this`round
      ensures fresh(round) && id == old(nextRound) + 1
      ensures var m := old(Model());
              Model() == m.(sampling := m.sampling.(next := id, round := Some(P.NewRound(id, now))))
    {
      nextRound := nextRound + 1;
      round := new SamplingRound(P.NewRound(nextRound, now));
      id := nextRound;
    }

    method ClaimRound(index: Index, now: int) returns (id: nat)
      requires Valid()
      modifies Repr()
      ensures Valid() && Repr() == old(Repr())
      ensures Model() == P.ClaimRound(old(Model()), index, now)
      ensures id == if P.Claims(old(Model()), index, now) then old(Model()).sampling.round.value.id else 0
    {
      if round == null || round.claimed.At(index) || now < round.openedAt || now - round.openedAt > ROUND_DEADLINE {
        id := 0;
      } else {
        round.claimed := round.claimed.With(index, true);
        id := round.id;
      }
    }

    method StopSampling()
      requires Valid()
      modifies this`samplingStopped, this`round, this`pairedAt, this`pairedId, slots
      ensures round == old(round) || round == null
      ensures Model() == P.StopSampling(old(Model()))
    {
      samplingStopped := true;
      CancelRound();
    }

    // ----- Roles, vehicle, seatbox, tags, failed and absent reads -----

    method SetRole(index: Index, eligible: bool)
      requires Valid()
      modifies this`coordinated, this`round, this`pairedAt, this`pairedId, slots
      ensures Model() == P.SetRole(old(Model()), index, eligible)
      ensures round == null
    {
      hide P.Wipe;
      DropEvidence();
      var s := slots[index];
      Store(index, s.(eligible := eligible, powerTracked := s.powerTracked || eligible));
      if slots[0].eligible && slots[1].eligible {
        coordinated := true;
      }
    }

    method StoppedMotionFresh(now: int, jumped: bool) returns (b: bool)
      modifies this`motion
      ensures b == P.StoppedMotionFresh(old(motion), now, jumped)
      ensures motion == P.Checked(old(motion), jumped)
    {
      if motion.lastCheck != 0 && jumped {
        motion := P.Unmoved(motion);
        b := false;
      } else {
        b := motion.enabled && motion.stopped && motion.since != 0
             && motion.at <= now && now - motion.at <= MOTION_MAX_AGE;
      }
    }

    method SetVehicle(state: Vehicle, now: int, jumped: bool)
      requires Valid()
      modifies this`vehicle, this`motion, this`round, this`pairedAt, this`pairedId, slots
      ensures round == old(round) || round == null
      ensures Model() == P.SetVehicle(old(Model()), state, now, jumped)
    {
      hide P.Wipe, NonDriving, P.SetVehicle, P.Checked, P.StoppedMotionFresh;
      VehicleCases(Model(), state, now, jumped);
      ghost var st := Model();
      if vehicle != state && !(NonDriving(vehicle) && NonDriving(state)) {
        var stopped := StoppedMotionFresh(now, jumped);
        ghost var checked := Model();
        assert checked == st.(motion := P.Checked(st.motion, jumped));
        if !stopped {
          DropEvidence();
          assert Model() == P.DropEvidence(checked);
        } else {
          assert Model() == checked;
        }
      } else {
        assert Model() == st;
      }
      vehicle := state;
    }

    method SetSeatbox(closed: bool)
      requires Valid()
      modifies this`seatboxKnown, this`seatboxClosed, this`round, this`pairedAt, this`pairedId, slots
      ensures round == old(round) || round == null
      ensures Model() == P.SetSeatbox(old(Model()), closed)
    {
      if !seatboxKnown {
        seatboxKnown, seatboxClosed := true, closed;
      } else if seatboxClosed != closed {
        InvalidateSeatbox();
        seatboxClosed := closed;
      }
    }

    method InvalidateSeatbox()
      requires Valid()
      modifies this`round, this`pairedAt, this`pairedId, slots
      ensures round == old(round) || round == null
      ensures Model() == P.SeatboxMoved(old(Model()))
    {
      hide P.SeatboxInvalid;
      DropEvidence();
      ghost var a, b := slots[0], slots[1];
      for i := 0 to 2
        modifies slots
        invariant slots[0] == if i > 0 then P.SeatboxInvalid(a) else a
        invariant slots[1] == if i > 1 then P.SeatboxInvalid(b) else b
      {
        var s := Unseated(slots[i]);
        slots[i] := s;
      }
    }

    static method Unseated(given: Slot) returns (s: Slot)
      ensures s == P.SeatboxInvalid(given)
    {
      s := given.(valid := false, history := [], observedRound := 0);
      if !s.held || !s.active {
        s := s.(requiresAdmission := true);
      }
    }

    method Tag(index: Index, uid: string)
      requires Valid()
      modifies this`round, this`pairedAt, this`pairedId, slots
      ensures round == old(round) || round == null
      ensures Model() == P.Tag(old(Model()), index, uid)
    {
      hide P.Wipe, P.Retagged, NonDriving;
      CancelRound();
      var s := Selected(slots[index], uid, NonDriving(vehicle));
      Store(index, s);
    }

    static method Selected(given: Slot, uid: string, parked: bool) returns (s: Slot)
      ensures s == P.Retagged(given, uid, parked)
    {
      hide P.Retagged;
      if given.uid != uid {
        s := ReplaceIdentity(given, uid).(absent := false);
        RetaggedAnew(given, uid, parked);
      } else {
        s := given.(valid := false, haveFrame := false, written := 0, history := [], absent := false,
                    requiresAdmission := given.requiresAdmission || parked);
        RetaggedAgain(given, uid, parked);
      }
    }

    method FailAcquisition(index: Index, id: nat, sample: Acquisition)
      requires Valid()
      modifies Repr()
      ensures isolation == old(isolation) && round == null
      ensures Model() == P.FailAcquisition(old(Model()), index)
    {
      if round != null && round.id == id {
        round.samples := round.samples.With(index, sample);
      }
      assert P.CancelRound(Model()) == P.CancelRound(old(Model()));
      hide P.Wipe;
      CancelRound();
      Store(index, P.Failed(slots[index]));
    }

    method ObserveAbsent(index: Index, now: int)
      requires Valid()
      modifies this`round, this`pairedAt, this`pairedId, slots
      ensures round == old(round) || round == null
      ensures Model() == P.ObserveAbsent(old(Model()), index, now)
    {
      hide P.Wipe, P.Gone, NonDriving;
      CancelRound();
      var s := Departed(slots[index], now, NonDriving(vehicle));
      Store(index, s);
    }

    static method Departed(given: Slot, now: int, parked: bool) returns (s: Slot)
      ensures s == P.Gone(given, now, parked)
    {
      s := given.(valid := false, haveFrame := false, written := 0, observedRound := 0, history := [],
                  requiresAdmission := given.requiresAdmission || parked, absent := !given.held, observed := now);
    }
  
    // ----- Motion evidence -----

    method ObserveMotion(stopped: bool, received: int, now: int)
      requires Valid() && motion.lastCheck == now
      modifies this`motion, this`round, this`pairedAt, this`pairedId, slots
      ensures round == old(round) || round == null
      ensures var m := old(Model());
              var turns := P.Turns(m.motion, stopped, received, now);
              Model() == P.Wipe(m, turns, turns).(motion := P.Moved(m.motion, stopped, received, now))
    {
      hide P.Wipe, P.Moved, P.Refused;
      Invariant.WipeNothing(Model());
      var refused := P.Refused(motion, received, now);
      if !refused && (motion.at == 0 || motion.stopped != stopped) {
        DropEvidence();
      }
      UpdateWindow(stopped, received, now, refused);
    }

    /** Restart, extend or forget the stopped window. */
    method UpdateWindow(stopped: bool, received: int, now: int, refused: bool)
      requires refused == P.Refused(motion, received, now)
      modifies this`motion
      ensures motion == P.Moved(old(motion), stopped, received, now)
    {
      if refused {
        motion := motion.(at := 0, since := 0, stopped := false);
      } else {
        if !stopped {
          motion := motion.(since := 0);
        } else if !motion.stopped || received - motion.at > MOTION_MAX_AGE {
          motion := motion.(since := received);
        }
        motion := motion.(at := received, stopped := stopped);
      }
    }

    method ReceiveMotion(report: MotionReport, now: int, jumped: bool) returns (accepted: bool)
      requires Valid()
      modifies this`motion, this`round, this`pairedAt, this`pairedId, slots
      ensures round == old(round) || round == null
      ensures Model() == P.ReceiveMotion(old(Model()), report, now, jumped)
      ensures accepted == (motion.at != 0)
    {
      hide P.Wipe, P.Tuned, P.Moved, P.Turns, P.Checked, P.ReceiveMotion, P.Unmoved;
      ghost var st := Model();
      ReceiveCases(st, report, now, jumped);
      CheckClock(now, jumped);
      ghost var c := motion;
      if !(report.wellFormed && report.sequence != 0)
         || (report.source == motion.source && report.sequence <= motion.sequence) {
        InvalidateMotion();
      } else {
        Tune(report);
        if !report.Complete() || report.observedAt.value == 0 || report.observedAt.value > now
           || now - report.observedAt.value > MOTION_MAX_AGE {
          InvalidateMotion();
        } else {
          TunedCheck(c, report);
          ghost var m := motion;
          ObserveMotion(report.rpm.value == 0 && report.rawSpeed.value == 0 && !report.throttleOn.value,
                        report.observedAt.value, now);
          WipeMotion(st, m, P.Turns(m, report.Stopped(), report.observedAt.value, now), motion);
        }
      }
      accepted := motion.at != 0;
    }

    method InvalidateMotion()
      requires Valid()
      modifies this`motion
      ensures Model() == old(Model()).(motion := P.Unmoved(old(motion)))
    {
      motion := motion.(at := 0, since := 0, stopped := false);
    }

    method CheckClock(now: int, jumped: bool)
      requires Valid()
      modifies this`motion
      ensures Model() == old(Model()).(motion := P.Checked(old(motion), jumped).(lastCheck := now))
    {
      if motion.lastCheck != 0 && jumped {
        InvalidateMotion();
      }
      motion := motion.(lastCheck := now);
    }

    method Tune(report: MotionReport)
      requires Valid()
      modifies this`motion
      ensures Model() == old(Model()).(motion := P.Tuned(old(motion), report))
    {
      if report.source != motion.source || report.sequence != motion.sequence + 1 {
        InvalidateMotion();
      }
      motion := motion.(source := report.source, sequence := report.sequence);
    }

    method ResetMotion()
      requires Valid()
      modifies this`motion
      ensures Model() == P.ResetMotion(old(Model()))
    {
      motion := motion.(at := 0, since := 0, stopped := false);
      motion := motion.(source := "", sequence := 0);
    }
  
    // ----- Observations -----

    /** What a frame that proves a slot on or off does to the episode. */
    method UpdateEpisode(index: Index, on: bool, off: bool)
      requires Valid()
      modifies this`isolation, isolation
      ensures isolation == old(isolation) || isolation == null
      ensures Model() == old(Model()).(isolation := P.EpisodeAfter(old(Model()).isolation, index, on, off))
    {
      if isolation != null {
        if on {
          if isolation.handover && isolation.offConfirmed && isolation.survivor == index {
            isolation := null;
          }
        } else if off {
          if isolation.victim == index {
            if isolation.handover {
              isolation.offConfirmed := true;
            } else {
              isolation := null;
            }
          } else if !isolation.handover && isolation.survivor == index && !isolation.attempted {
            isolation := null;
          }
        }
      }
    }

    /** A changed identity cancels the round; a lost supply also clears both windows. */
    method WipeFor(swap: bool, lost: bool)
      requires Valid()
      modifies this`round, this`pairedAt, this`pairedId, slots
      ensures round == old(round) || round == null
      ensures Model() == P.Wipe(old(Model()), swap || lost, (swap && samplingEnabled) || lost)
    {
      hide P.Wipe;
      ghost var st := Model();
      Invariant.WipeNothing(st);
      if swap {
        CancelRound();
      }
      assert Model() == P.Wipe(st, swap, swap && samplingEnabled);
      Invariant.WipeTwice(st, swap, swap && samplingEnabled, lost, lost);
      Invariant.WipeNothing(Model());
      if lost {
        DropEvidence();
      }
    }

    method ObserveFrame(index: Index, data: Frame, now: int)
      requires Valid()
      modifies Repr()
      ensures Valid() && (isolation == old(isolation) || isolation == null) && (round == old(round) || round == null)
      ensures Model() == P.ObserveFrame(old(Model()), index, data, now)
    {
      hide P.ObserveFrame, P.Wipe, P.EpisodeAfter, Surrounding;
      ghost var st := Model();
      var s, swap, lost, on, off := Observed(slots[index], data, now, !(samplingEnabled && coordinated), st, index);
      Apply(index, swap, lost, on, off);
      Store(index, s);
    }

    /** What the frame makes of its own slot, and what follows for the rest. */
    static method Observed(given: Slot, data: Frame, now: int, logging: bool, ghost st: State, ghost index: Index)
      returns (s: Slot, swap: bool, lost: bool, on: bool, off: bool)
      requires given == st.slots.At(index) && logging == !(st.sampling.enabled && st.coordinated)
      ensures P.ObserveFrame(st, index, data, now) == Surrounding(st, index, swap, lost, on, off).Put(index, s)
    {
      hide P.ObserveFrame, P.Wipe, P.Read, P.EpisodeAfter, P.SerialSwap, P.Appended, P.Resolved;
      ObservedInOrder(st, index, data, now);
      swap := P.SerialSwap(given, data);
      s := ReadFrame(given, data, now);
      on := s.valid && data.state.Active?;
      off := s.valid && !data.state.Active? && s.OffProven(now);
      lost := off && s.held;
      var kept := if lost then [] else s.history;
      if s.valid && logging {
        kept := Window.AppendHistory(kept, Sample(data, now));
      }
      s := P.Resolved(s, on, off).(history := kept);
    }

    method Apply(index: Index, swap: bool, lost: bool, on: bool, off: bool)
      requires Valid()
      modifies Repr()
      ensures Valid() && (isolation == old(isolation) || isolation == null) && (round == old(round) || round == null)
      ensures Model() == Surrounding(old(Model()), index, swap, lost, on, off)
    {
      hide P.Wipe, P.EpisodeAfter;
      ghost var st := Model();
      WipeFor(swap, lost);
      Invariant.WipeFacts(st, swap || lost, (swap && st.sampling.enabled) || lost, index);
      UpdateEpisode(index, on, off);
    }

    // ----- Acquisitions -----

    method HasInactiveCandidate() returns (b: bool)
      requires Valid()
      ensures b == P.HasInactiveCandidate(Model())
    {
      b := false;
      if !samplingStopped {
        for i := 0 to 2
          invariant b == ((i > 0 && P.Candidate(slots[0])) || (i > 1 && P.Candidate(slots[1])))
        {
          var s := slots[i];
          b := b || (s.eligible && !s.absent && !s.held && !s.offPending && !s.active);
        }
      }
    }

    /** Whether the stored sample is timely and its slot fresh. */
    method Accepts(index: Index, a: Acquisition) returns (b: bool)
      requires Valid() && round != null
      ensures b == P.Sound(Model(), index, a)
    {
      b := !(a.start < round.openedAt || a.end < a.start || a.complete < a.end
             || a.complete - round.openedAt > ROUND_DEADLINE || a.complete - a.start > FRAME_LIMIT
             || !slots[index].Fresh(a.complete));
    }

    /** Whether the stored samples form a pair: close in time, and each still its slot's newest frame. */
    method Matches(now: int) returns (b: bool)
      requires Valid() && round != null
      ensures b == P.Pairs(Model(), round.Model(), now)
    {
      b := P.Span(round.samples.first, round.samples.second) <= PAIR_SKEW;
      for i := 0 to 2
        invariant b == (&& P.Span(round.samples.first, round.samples.second) <= PAIR_SKEW
                        && (i > 0 ==> P.Current(slots[0], round.samples.first, now))
                        && (i > 1 ==> P.Current(slots[1], round.samples.second, now)))
      {
        b := b && slots[i].Fresh(now) && slots[i].observed == round.samples.At(i).complete;
      }
    }

    method StorePair()
      requires Valid() && round != null
      modifies this`round, this`pairedAt, this`pairedId, slots
      ensures Model() == P.WithPair(old(Model()), old(round.Model()))
      ensures round == null
    {
      hide P.Appended;
      var r := round;
      ghost var a, b := slots[0], slots[1];
      for i := 0 to 2
        modifies slots
        invariant slots[0] == if i > 0 then Logged(a, r.samples.first) else a
        invariant slots[1] == if i > 1 then Logged(b, r.samples.second) else b
      {
        var p := r.samples.At(i);
        var h := Window.AppendHistory(slots[i].history, Sample(p.data, p.start));
        slots[i] := slots[i].(history := h);
      }
      pairedAt, pairedId := P.Min(r.samples.first.start, r.samples.second.start), r.id;
      round := null;
    }

    /** A first delivery: judge it, pair it when its partner is there, or drop the round. */
    method Deliver(index: Index, a: Acquisition) returns (concluded: bool)
      requires Valid() && round != null
      modifies Repr()
      ensures Valid() && isolation == old(isolation) && (round == old(round) || round == null)
      ensures Model() == P.Deliver(old(Model()), index, a)
      ensures var m := old(Model());
              concluded == (P.Sound(m, index, a) && (!P.MayRun(m.slots.At(1 - index)) || P.Completes(m, index, a)))
    {
      hide P.Sound, P.MayRun, P.Completes, P.Deliver, Judged, Carried;
      ghost var st := Model();
      round.samples := round.samples.With(index, a);
      DeliverCases(st, Model(), index, a);
      var outcome := Judge(index, a);
      Carry(outcome);
      concluded := outcome.Joined? || outcome == Cancelled(true);
    }

    method Judge(index: Index, a: Acquisition) returns (outcome: Outcome)
      requires Valid() && round != null
      ensures outcome == Judged(Model(), index, a)
    {
      hide P.Pairs, P.Sound, P.MayRun;
      var sound := Accepts(index, a);
      var pairs := Matches(a.complete);
      if !sound {
        outcome := Cancelled(false);
      } else if !P.MayRun(slots[1 - index]) {
        outcome := Cancelled(true);
      } else if round.samples.At(1 - index).complete == 0 {
        outcome := Awaiting;
      } else if !pairs {
        outcome := Cancelled(false);
      } else {
        outcome := Joined;
      }
    }

    method Carry(outcome: Outcome)
      requires Valid() && round != null
      modifies this`round, this`pairedAt, this`pairedId, slots
      ensures Valid() && (round == old(round) || round == null)
      ensures Model() == Carried(old(Model()), outcome)
    {
      hide P.CancelRound, P.WithPair;
      match outcome
      case Cancelled(_) => CancelRound();
      case Awaiting =>
      case Joined => StorePair();
    }

    method Note(index: Index, id: nat, a: Acquisition) returns (retry: bool)
      requires Valid()
      modifies Repr()
      ensures Valid() && (isolation == old(isolation) || isolation == null) && (round == old(round) || round == null)
      ensures Model() == P.Noted(old(Model()), index, id, a)
      ensures var m := Model();
              retry == (&& old(Model()).slots.At(index).written == 0
                        && m.slots.At(index).valid && P.HasInactiveCandidate(m))
    {
      hide P.ObserveFrame, P.HasInactiveCandidate;
      var confirmed := slots[index].written != 0;
      ObserveFrame(index, a.data, a.complete);
      var seen := Mark(index, id);
      retry := !confirmed && seen;
    }

    /** Record which round the newest frame belongs to. */
    method Mark(index: Index, id: nat) returns (seen: bool)
      requires Valid()
      modifies slots
      ensures Model() == old(Model()).Put(index, old(Model()).slots.At(index).(observedRound := id))
      ensures seen == (Model().slots.At(index).valid && P.HasInactiveCandidate(Model()))
    {
      hide P.HasInactiveCandidate;
      var candidate := HasInactiveCandidate();
      var s := slots[index];
      seen := s.valid && candidate;
      ghost var st := Model();
      assert s == st.slots.At(index);
      CandidateMarked(st, st.Put(index, s.(observedRound := id)), index, id);
      Store(index, s.(observedRound := id));
    }

    method File(index: Index, id: nat, a: Acquisition) returns (concluded: bool)
      requires Valid()
      modifies Repr()
      ensures Valid() && isolation == old(isolation) && (round == old(round) || round == null)
      ensures Model() == P.Filed(old(Model()), index, id, a)
      ensures concluded == P.Concludes(old(Model()), index, id, a)
    {
      hide P.Sound, P.MayRun, P.Completes, P.Deliver, P.CancelRound;
      concluded := false;
      if samplingEnabled && coordinated {
        if id == 0 || round == null || id != round.id || !round.claimed.At(index) {
          CancelRound();
        } else if round.samples.At(index).complete == 0 {
          concluded := Deliver(index, a);
        }
      }
    }

    method ObserveAcquisition(index: Index, id: nat, a: Acquisition) returns (retry: bool)
      requires Valid()
      modifies Repr()
      ensures Valid() && (isolation == old(isolation) || isolation == null) && (round == old(round) || round == null)
      ensures Model() == P.ObserveAcquisition(old(Model()), index, id, a)
      ensures retry == P.PromptsDecision(old(Model()), index, id, a)
    {
      hide P.Noted, P.Filed, P.Concludes, P.HasInactiveCandidate;
      retry := Note(index, id, a);
      CandidateFiled(Model(), index, id, a);
      var concluded := File(index, id, a);
      var candidate := HasInactiveCandidate();
      retry := retry || (concluded && candidate);
    }

    // ----- Isolation and handover -----

    method PairCurrent(now: int) returns (b: bool)
      requires Valid()
      ensures b == P.PairCurrent(Model(), now)
    {
      var skew := slots[0].observed - slots[1].observed;
      if skew < -MAX_SKEW || skew > MAX_SKEW {
        b := false;
      } else {
        b := !samplingEnabled
             || (pairedAt != 0 && now - pairedAt <= MAX_AGE
                 && slots[0].observedRound == pairedId && slots[1].observedRound == pairedId);
      }
    }

    /** Whether the episode in progress ends on review. */
    method EndsOnReview(now: int, maxDelta: nat) returns (b: bool)
      requires Valid() && isolation != null
      ensures b == P.Dropped(Model(), isolation.Model(), now, maxDelta)
    {
      hide P.PairCurrent, Slot.Usable, Slot.KnownAbsent, Slot.Fresh;
      var e := isolation;
      var target, prior := slots[e.survivor], slots[e.victim];
      ghost var st := Model();
      assert target == st.slots.At(e.survivor) && prior == st.slots.At(e.victim);
      var current := PairCurrent(now);
      if !e.attempted && maxDelta == 0 {
        b := true;
      } else if e.handover && !e.attempted && current && slots[0].Fresh(now) && slots[1].Fresh(now)
                && (!target.Usable() || target.frame.voltage <= prior.frame.voltage || maxDelta == 0
                    || Distance(target.frame.voltage, prior.frame.voltage) <= maxDelta) {
        b := true;
      } else {
        b := e.handover && e.offConfirmed && !target.held && !prior.held
             && (target.KnownAbsent(now) || !target.Usable()
                 || (prior.Usable() && prior.frame.voltage > target.frame.voltage));
      }
    }

    /** Whether the two frames show a mismatch that may be acted on. */
    method ShowsMismatch(now: int, maxDelta: nat) returns (b: bool)
      requires Valid()
      ensures b == P.Mismatched(Model(), now, maxDelta)
    {
      hide P.PairCurrent, Slot.Fresh, NonDriving;
      b := coordinated && maxDelta != 0 && NonDriving(vehicle);
      for i := 0 to 2
        invariant b == (&& coordinated && maxDelta != 0 && NonDriving(vehicle)
                        && (i > 0 ==> !slots[0].offPending && slots[0].Fresh(now))
                        && (i > 1 ==> !slots[1].offPending && slots[1].Fresh(now)))
      {
        b := b && !slots[i].offPending && slots[i].Fresh(now);
      }
      var current := PairCurrent(now);
      b := b && current && Distance(slots[0].frame.voltage, slots[1].frame.voltage) > maxDelta;
    }

    /** Pick survivor and victim once from a current pair. */
    method SelectEpisode(now: int, maxDelta: nat) returns (e: Option<Episode>)
      requires Valid()
      ensures e == P.Selected(Model(), now, maxDelta)
    {
      hide P.Mismatched, Slot.Stable, Slot.Usable;
      ghost var st := Model();
      var mismatch := ShowsMismatch(now, maxDelta);
      var survivor: Index := 0;
      if slots[1].frame.voltage > slots[0].frame.voltage {
        survivor := 1;
      }
      if !slots[survivor].Usable() {
        survivor := 1 - survivor;
      }
      assert survivor == P.Survivor(st);
      var target, victim := slots[survivor], slots[1 - survivor];
      assert target == st.slots.At(survivor) && victim == st.slots.At(1 - survivor);
      var calm := IsStable(target, now);
      var steady := IsStable(victim, now);
      e := None;
      if mismatch && target.Usable() && victim.held && victim.active && victim.frame.state.Active? {
        if target.held && target.active && target.frame.state.Active? {
          if !target.requiresAdmission {
            e := Some(Episode(survivor, 1 - survivor, false, false, false));
          }
        } else if conservative && !target.held && (target.frame.state.Idle? || target.frame.state.Asleep?)
                  && calm && steady {
          e := Some(Episode(survivor, 1 - survivor, false, true, false));
        }
      }
    }

    method Reconcile(now: int, maxDelta: nat)
      requires Valid()
      modifies this`isolation
      ensures isolation == old(isolation) || isolation == null || fresh(isolation)
      ensures Model() == P.Reconcile(old(Model()), now, maxDelta)
    {
      hide P.Dropped, P.Selected;
      if isolation != null {
        var ends := EndsOnReview(now, maxDelta);
        if ends {
          isolation := null;
        }
      } else {
        var e := SelectEpisode(now, maxDelta);
        if e.Some? {
          isolation := new IsolationEpisode(e.value);
        }
      }
    }

    method IsolationReady(now: int) returns (b: bool)
      requires Valid()
      ensures b == P.IsolationReady(Model(), now)
    {
      hide P.PairCurrent, Slot.Stable, Slot.Usable, Slot.Fresh, NonDriving;
      b := false;
      if isolation != null && NonDriving(vehicle) {
        var e := isolation;
        var s, prior := slots[e.survivor], slots[e.victim];
        ghost var st := Model();
        assert s == st.slots.At(e.survivor) && prior == st.slots.At(e.victim);
        if !e.handover {
          b := s.held && s.active && !s.requiresAdmission && !s.offPending && s.Fresh(now) && s.Usable()
               && s.frame.state.Active?;
        } else if e.offConfirmed || s.held || s.offPending || !s.Fresh(now) || !s.Usable()
                  || !(s.frame.state.Idle? || s.frame.state.Asleep?) {
          b := false;
        } else {
          var current := PairCurrent(now);
          var calm := IsStable(s, now);
          var steady := IsStable(prior, now);
          b := e.attempted || (current && calm && steady);
        }
      }
    }

    method MaintainsHandover(index: Index, now: int) returns (b: bool)
      requires Valid()
      ensures b == P.KeepsHandover(Model(), index, now)
    {
      hide Slot.KnownAbsent, Slot.Fresh;
      b := false;
      if isolation != null && isolation.handover && isolation.attempted && !isolation.offConfirmed
         && isolation.victim == index && vehicle == ReadyToDrive {
        var prior, target := slots[isolation.victim], slots[isolation.survivor];
        ghost var st := Model();
        assert target == st.slots.At(isolation.survivor) && prior == st.slots.At(isolation.victim);
        b := && prior.held && prior.active && !prior.requiresAdmission && prior.Fresh(now) && prior.frame.state.Active?
             && prior.observed > prior.offAt && now - prior.offAt >= COMMAND_TIME
             && !target.held && !target.offPending
             && (target.KnownAbsent(now)
                 || (target.Fresh(now) && (target.frame.state.Idle? || target.frame.state.Asleep?)));
      }
    }

    method ShouldIsolate(index: Index, now: int, maxDelta: nat) returns (b: bool)
      requires Valid()
      modifies Repr()
      ensures Valid() && fresh(Repr() - old(Repr()))
      ensures Model() == P.Reconcile(old(Model()), now, maxDelta)
      ensures b == P.OrdersOff(Model(), index, now)
      ensures var e := Model().isolation;
              b <==> && e.Some? && e.value.victim == index && !e.value.offConfirmed
                     && (e.value.attempted || Decided.Justified(Model(), e.value, now))
                     && !Decided.Paused(Model(), index, now)
    {
      hide P.Reconcile, P.KeepsHandover, P.IsolationReady, Decided.Justified, Decided.Paused;
      Decided.OrderedExactly(P.Reconcile(Model(), now, maxDelta), index, now);
      Reconcile(now, maxDelta);
      var keeps := MaintainsHandover(index, now);
      var ready := IsolationReady(now);
      b := !keeps && isolation != null && isolation.victim == index && !isolation.offConfirmed
           && (isolation.attempted || ready);
    }

    method OffAttempt(index: Index, now: int)
      requires Valid()
      modifies Repr()
      ensures Valid() && isolation == old(isolation) && round == null
      ensures Model() == P.OffAttempt(old(Model()), index, now)
    {
      hide P.Wipe, P.Commanded;
      WipeEpisode(Model(), P.Attempted(Model().isolation, index));
      MarkAttempt(index);
      DropEvidence();
      Store(index, Command(slots[index], now));
    }

    method MarkAttempt(index: Index)
      requires Valid()
      modifies Repr()
      ensures isolation == old(isolation) && round == old(round)
      ensures Model() == old(Model()).(isolation := P.Attempted(old(Model()).isolation, index))
    {
      if isolation != null && isolation.victim == index {
        isolation.attempted := true;
      }
    }

    method IsolationOffAttempt(index: Index, now: int) returns (b: bool)
      requires Valid()
      modifies Repr()
      ensures Valid() && isolation == old(isolation) && (round == old(round) || round == null)
      ensures Model() == P.IsolationOff(old(Model()), index, now)
      ensures b == P.CorrectiveOff(old(Model()), index, now)
      ensures var m := old(Model());
              b <==> && m.isolation.Some? && m.isolation.value.victim == index
                     && Decided.Justified(m, m.isolation.value, now)
    {
      hide P.IsolationReady, P.OffAttempt, Decided.Justified;
      Decided.JustifiedExactly(Model(), now);
      var ready := IsolationReady(now);
      b := isolation != null && isolation.victim == index && ready;
      if b {
        OffAttempt(index, now);
      }
    }

    // ----- Permission to switch on -----

    method StoppedPairReady(now: int, jumped: bool) returns (b: bool)
      requires Valid()
      modifies this`motion
      ensures b == P.StoppedPairReady(old(Model()), now, jumped)
      ensures motion == P.Checked(old(motion), jumped)
    {
      ghost var st := Model();
      b := StoppedMotionFresh(now, jumped);
      if b {
        b := samplingEnabled && !samplingStopped && pairedId != 0
             && motion.since <= pairedAt <= now && now - pairedAt <= STOPPED_PAIR_AGE;
        ghost var timely := b;
        for i := 0 to 2
          invariant b == (timely && (i > 0 ==> P.PairOfStop(st, slots[0])) && (i > 1 ==> P.PairOfStop(st, slots[1])))
        {
          var s := slots[i];
          b := b && s.observedRound == pairedId && s.observed <= motion.at
               && |s.history| > 0 && motion.since <= s.history[0].at;
        }
      }
    }

    /** Parked needs no fresh motion; anything else needs a pair sampled during one proven stop. */
    method SecondPackStationary(now: int, jumped: bool) returns (b: bool)
      requires Valid()
      modifies this`motion
      ensures b == P.SecondPackStationary(old(Model()), now, jumped)
      ensures motion == if NonDriving(vehicle) then old(motion) else P.Checked(old(motion), jumped)
    {
      hide P.StoppedPairReady;
      if NonDriving(vehicle) {
        b := motion.at == 0 || now < motion.at || now - motion.at > MOTION_MAX_AGE || motion.stopped;
      } else {
        b := StoppedPairReady(now, jumped);
      }
    }

    /** Conservative comparison of two windows. */
    static method StabilityObjection(s: Slot, peer: Slot, now: int, maxDelta: nat) returns (r: Option<Reason>)
      ensures r == if !s.Stable(now) || !peer.Stable(now) then Some(WaitingForStability)
                   else if maxDelta > 0 && !P.WindowsAgree(s.history, peer.history, P.StrictLimit(maxDelta))
                   then Some(VoltageTooFar)
                   else None
    {
      var calm := IsStable(s, now);
      var steady := IsStable(peer, now);
      var agree := CompareWindows(s.history, peer.history, P.StrictLimit(maxDelta));
      r := if !calm || !steady then Some(WaitingForStability)
           else if maxDelta > 0 && !agree then Some(VoltageTooFar)
           else None;
    }

    method JoinObjection(index: Index, now: int, maxDelta: nat, jumped: bool) returns (r: Option<Reason>)
      requires Valid()
      modifies this`motion
      ensures r == P.JoinObjection(old(Model()), index, now, maxDelta, jumped)
      ensures NonDriving(vehicle) ==> motion == old(motion)
    {
      hide P.SecondPackStationary, Slot.Depleted, Slot.Stable, P.WindowsAgree, NonDriving, P.StrictLimit;
      ghost var st := Model();
      var s, peer := slots[index], slots[1 - index];
      assert s == st.slots.At(index) && peer == st.slots.At(1 - index);
      var stationary := SecondPackStationary(now, jumped);
      var unstable := StabilityObjection(s, peer, now, maxDelta);
      var skew := slots[0].observed - slots[1].observed;
      if !stationary {
        r := Some(WaitingForStationary);
      } else if !NonDriving(vehicle) && peer.requiresAdmission {
        r := Some(WaitingForQualifiedPeer);
      } else if !peer.active || peer.offPending {
        r := Some(WaitingForPeerPower);
      } else if peer.Depleted() {
        r := Some(PeerUnusable);
      } else if samplingEnabled && (pairedAt == 0 || now - pairedAt > MAX_AGE
                                    || slots[0].observedRound != pairedId || slots[1].observedRound != pairedId) {
        r := Some(WaitingForPair);
      } else if skew < -MAX_SKEW || skew > MAX_SKEW {
        r := Some(WaitingForAlignment);
      } else if maxDelta > 0 && Distance(slots[0].frame.voltage, slots[1].frame.voltage) > maxDelta {
        r := Some(VoltageTooFar);
      } else if conservative || !NonDriving(vehicle) {
        r := unstable;
      } else {
        r := None;
      }
    }

    method PeerObjection(index: Index, now: int, maxDelta: nat, jumped: bool) returns (r: Option<Reason>)
      requires Valid()
      modifies this`motion
      ensures r == P.PeerObjection(old(Model()), index, now, maxDelta, jumped)
      ensures NonDriving(vehicle) || !slots[1 - index].held ==> motion == old(motion)
    {
      hide P.JoinObjection, P.SelectionObjection, Slot.KnownAbsent, Slot.Fresh, Slot.Usable, P.MayRun;
      ghost var st := Model();
      var peer := slots[1 - index];
      assert peer == st.slots.At(1 - index);
      var absent := peer.KnownAbsent(now);
      r := None;
      if peer.monitored && P.MayRun(peer) {
        if !absent && !peer.Fresh(now) {
          r := Some(WaitingForPeerData);
        } else if peer.held {
          r := JoinObjection(index, now, maxDelta, jumped);
        } else if !absent && peer.Usable() {
          r := Preferred(slots[index], peer, index);
        }
      }
    }

    /** Which of two idle packs starts first. */
    method Preferred(s: Slot, peer: Slot, index: Index) returns (r: Option<Reason>)
      requires Valid() && s == slots[index] && peer == slots[1 - index]
      ensures r == P.SelectionObjection(Model(), index)
    {
      r := None;
      if !conservative {
        if index > 0 {
          r := Some(PrimarySelected);
        }
      } else if peer.frame.voltage > s.frame.voltage
                || (peer.frame.voltage == s.frame.voltage && peer.frame.charge > s.frame.charge)
                || (peer.frame.voltage == s.frame.voltage && peer.frame.charge == s.frame.charge && index > 0) {
        r := Some(HigherVoltageSelected);
      }
    }

    method Qualify(index: Index, now: int, maxDelta: nat, jumped: bool) returns (reason: Reason)
      requires Valid()
      modifies this`motion
      ensures reason == P.Qualify(old(Model()), index, now, maxDelta, jumped)
      ensures motion == old(motion)
    {
      hide P.PeerObjection, Slot.Fresh, Slot.Usable, NonDriving;
      ghost var st := Model();
      var s, peer := slots[index], slots[1 - index];
      assert s == st.slots.At(index) && peer == st.slots.At(1 - index);
      if samplingStopped {
        reason := ServiceStopping;
      } else if !NonDriving(vehicle) && (vehicle != ReadyToDrive || peer.held || peer.offPending) {
        reason := WaitingForNonDrive;
      } else if s.held && !s.active && now - s.onAt > ON_SETTLE {
        reason := WaitingForOn;
      } else if !s.Fresh(now) {
        reason := WaitingForData;
      } else if !s.Usable() {
        reason := PackUnusable;
      } else {
        var objection := PeerObjection(index, now, maxDelta, jumped);
        reason := match objection
                  case Some(why) => why
                  case None => if !s.held then Admitted else if s.requiresAdmission then Requalified else AwaitingOn;
      }
    }

    method Decide(index: Index, now: int, maxDelta: nat, jumped: bool) returns (reason: Reason)
      requires Valid()
      modifies this`motion
      ensures reason == P.Decide(old(Model()), index, now, maxDelta, jumped)
      ensures motion == old(motion)
    {
      hide P.Qualify, P.KeepsHandover, P.IsolationReady;
      ghost var st := Model();
      var s := slots[index];
      assert s == st.slots.At(index);
      var keeps := MaintainsHandover(index, now);
      var ready := IsolationReady(now);
      if !s.eligible {
        reason := InactiveRole;
      } else if s.offPending {
        reason := if keeps then MaintainingHandover else WaitingForOff;
      } else if isolation != null && isolation.victim == index
                && (isolation.attempted || ready || !s.held || !s.active) {
        reason := IsolatingPack;
      } else if isolation != null && isolation.handover && isolation.survivor == index && !isolation.offConfirmed {
        reason := WaitingForHandover;
      } else if s.identityUncertain && s.held && !s.active {
        reason := WaitingForTagPower;
      } else if s.held && s.active && !s.requiresAdmission {
        reason := MaintainingSupply;
      } else {
        reason := Qualify(index, now, maxDelta, jumped);
      }
    }

    /** Reserve, requalify or keep alive, as decided. */
    method Enact(index: Index, now: int, reason: Reason)
      requires Valid()
      modifies this`round, this`pairedAt, this`pairedId, slots
      ensures round == old(round) || round == null
      ensures Model() == P.Enact(old(Model()), index, now, reason)
    {
      hide P.Wipe, P.Switched;
      Invariant.WipeNothing(Model());
      if reason.Requalified? || reason.Admitted? {
        DropEvidence();
      }
      Store(index, Switch(slots[index], now, reason));
    }

    method RequestOn(index: Index, now: int, maxDelta: nat, jumped: bool) returns (allowed: bool, reason: Reason)
      requires Valid()
      modifies Repr()
      ensures Valid() && fresh(Repr() - old(Repr()))
      ensures Model() == P.RequestOn(old(Model()), index, now, maxDelta, jumped)
      ensures reason == P.Verdict(old(Model()), index, now, maxDelta, jumped) && allowed == reason.Granted()
      ensures var c := P.Reconcile(old(Model()), now, maxDelta);
              && (allowed <==> Decided.Permits(c, index, now, maxDelta))
              && Decided.Explains(reason, c, index, now, maxDelta)
    {
      hide P.Reconcile, P.Decide, P.Enact, Decided.Permits, Decided.Explains;
      Decided.GrantedExactly(P.Reconcile(Model(), now, maxDelta), index, now, maxDelta, jumped);
      Decided.ReasonExplained(P.Reconcile(Model(), now, maxDelta), index, now, maxDelta, jumped);
      Reconcile(now, maxDelta);
      reason := Decide(index, now, maxDelta, jumped);
      Enact(index, now, reason);
      allowed := reason.Granted();
    }

    // ----- Construction and previews -----

    method Configure(r: Reader)
      requires Valid()
      modifies this`coordinated, this`round, this`pairedAt, this`pairedId, slots
      ensures Model() == Configured(old(Model()), r)
      ensures round == old(round) || round == null
    {
      hide P.SetRole;
      if 0 <= r.index < 2 {
        var s := slots[r.index];
        Store(r.index, s.(monitored := r.enabled));
        SetRole(r.index, r.enabled && r.active);
      }
    }

    constructor (readers: seq<Reader>, conservative: bool, sampling: bool, motionEnabled: bool)
      ensures Valid() && fresh(Repr())
      ensures Model() == Initial(readers, conservative, sampling, motionEnabled)
    {
      coordinated, this.conservative, isolation, vehicle := false, true, null, Unlisted("");
      slots := new Slot[2](_ => EMPTY_SLOT);
      samplingEnabled, samplingStopped, nextRound, round, pairedAt, pairedId := false, false, 0, null, 0, 0;
      motion := Motion(false, 0, 0, false, "", 0, 0);
      seatboxKnown, seatboxClosed := false, false;
      new;
      hide ConfiguredAll;
      ConfigureAll(readers);
      Start(conservative, sampling, motionEnabled);
    }

    method ConfigureAll(readers: seq<Reader>)
      requires Valid() && Model() == BLANK_STATE
      modifies this`coordinated, this`round, this`pairedAt, this`pairedId, slots
      ensures Model() == ConfiguredAll(BLANK_STATE, readers) && round == null
    {
      hide Configured;
      for k := 0 to |readers|
        modifies this`coordinated, this`round, this`pairedAt, this`pairedId, slots
        invariant Model() == ConfiguredAll(BLANK_STATE, readers[..k]) && round == null
      {
        assert readers[..k + 1][..k] == readers[..k];
        Configure(readers[k]);
      }
      assert readers[..|readers|] == readers;
    }

    /** The settings fixed before the readers start. */
    method Start(conservative: bool, sampling: bool, motionEnabled: bool)
      requires Valid()
      modifies this`coordinated, this`conservative, this`samplingEnabled, this`motion
      ensures var st := old(Model());
              Model() == st.(coordinated := st.slots.first.monitored && st.slots.second.monitored,
                             conservative := conservative,
                             sampling := st.sampling.(enabled := sampling),
                             motion := st.motion.(enabled := motionEnabled))
    {
      coordinated := slots[0].monitored && slots[1].monitored;
      this.conservative, samplingEnabled := conservative, sampling;
      motion := motion.(enabled := motionEnabled);
    }

    /** `cloneLocked`: the copy shares no mutable object with the original. It leaves the seatbox fields unset. */
    constructor Clone(a: PackAdmission)
      requires a.Valid()
      ensures Valid() && fresh(Repr())
      ensures Model() == Snapshot(a.Model())
    {
      coordinated, conservative, vehicle := a.coordinated, a.conservative, a.vehicle;
      samplingEnabled, samplingStopped, nextRound := a.samplingEnabled, a.samplingStopped, a.nextRound;
      pairedAt, pairedId, motion := a.pairedAt, a.pairedId, a.motion;
      seatboxKnown, seatboxClosed := false, false;
      isolation, round := null, null;
      slots := new Slot[2];
      new;
      CopyObjects(a);
    }

    /** Fill a blank coordinator with copies of what `a` refers to. */
    method CopyObjects(a: PackAdmission)
      requires Valid() && a.Valid() && this != a && slots != a.slots && round == null && isolation == null
      modifies this`round, this`isolation, slots
      ensures (round == null || fresh(round)) && (isolation == null || fresh(isolation))
      ensures var st, m := old(Model()), a.Model();
              Model() == st.(slots := m.slots, isolation := m.isolation,
                             sampling := st.sampling.(round := m.sampling.round))
    {
      ghost var m := a.Model();
      CopySlots(a);
      CopyRound(a);
      CopyEpisode(a);
      assert a.Model() == m;
    }

    method CopySlots(a: PackAdmission)
      requires Valid() && a.Valid() && slots != a.slots
      modifies slots
      ensures slots[0] == a.slots[0] && slots[1] == a.slots[1]
    {
      for i := 0 to 2
        invariant forall j | 0 <= j < i :: slots[j] == a.slots[j]
      {
        slots[i] := a.slots[i];
      }
    }

    method CopyRound(a: PackAdmission)
      requires round == null && this != a
      modifies this`round
      ensures if a.round == null then round == null else fresh(round) && round.Model() == a.round.Model()
    {
      if a.round != null {
        round := new SamplingRound(Round(a.round.id, a.round.openedAt, a.round.claimed, a.round.samples));
      }
    }

    method CopyEpisode(a: PackAdmission)
      requires isolation == null && this != a
      modifies this`isolation
      ensures if a.isolation == null then isolation == null
              else fresh(isolation) && isolation.Model() == a.isolation.Model()
    {
      if a.isolation != null {
        isolation := new IsolationEpisode(Episode(a.isolation.survivor, a.isolation.victim, a.isolation.attempted,
                                                  a.isolation.handover, a.isolation.offConfirmed));
      }
    }

    /** `previewOn`. It modifies nothing that exists before the call. */
    method PreviewOn(index: Index, now: int, maxDelta: nat, joining: bool, mode: bool, jumped: bool)
      returns (allowed: bool, reason: Reason)
      requires Valid()
      ensures allowed == reason.Granted()
      ensures reason == P.Verdict(Previewed(Model(), index, joining, mode), index, now, maxDelta, jumped)
      ensures !joining && mode == conservative ==> reason == P.Verdict(Model(), index, now, maxDelta, jumped)
    {
      hide P.Verdict, P.RequestOn, Previewed;
      ghost var st := Model();
      PreviewFaithful(st, index, now, maxDelta, joining, mode, jumped);
      var copy := Question(index, joining, mode);
      assert Model() == st;
      allowed, reason := copy.RequestOn(index, now, maxDelta, jumped);
      assert Model() == st;
    }

    /** A copy set up for its question. */
    method Question(index: Index, joining: bool, mode: bool) returns (copy: PackAdmission)
      requires Valid()
      ensures copy.Valid() && fresh(copy.Repr())
      ensures copy.Model() == Previewed(Model(), index, joining, mode)
    {
      hide Supposed, Snapshot;
      copy := new PackAdmission.Clone(this);
      copy.Suppose(index, joining, mode);
    }

    method Suppose(index: Index, joining: bool, mode: bool)
      requires Valid()
      modifies this`conservative, slots
      ensures Model() == Supposed(old(Model()), index, joining, mode)
    {
      conservative := mode;
      if joining {
        Store(index, Unpowered(slots[index]));
      }
    }

    // ----- The object as a whole -----

    /** Every call is the step of its event, and keeps the invariant when the call is allowed. */
    method Dispatch(e: Event)
      requires Valid()
      modifies Repr()
      ensures Valid() && fresh(Repr() - old(Repr()))
      ensures Model() == Step(old(Model()), e)
      ensures Invariant.Inv(old(Model())) && Allowed(old(Model()), e) ==> Invariant.Inv(Model())
    {
      hide Step, Invariant.Inv, Allowed;
      StepKeeps(Model(), e);
      Perform(e);
    }

    method Perform(e: Event)
      requires Valid()
      modifies Repr()
      ensures Valid() && fresh(Repr() - old(Repr()))
      ensures Model() == Step(old(Model()), e)
    {
      hide Step;
      match e
      case RequestOnEvent(_, _, _, _) => Decides(e);
      case ShouldIsolateEvent(_, _, _) => Decides(e);
      case OffEvent(_, _) => Decides(e);
      case CorrectiveOffEvent(_, _) => Decides(e);
      case BeginRoundEvent(_) => Samples(e);
      case ClaimRoundEvent(_, _) => Samples(e);
      case StopSamplingEvent => Samples(e);
      case ObserveEvent(_, _, _) => Samples(e);
      case AcquireEvent(_, _, _) => Samples(e);
      case _ => Reports(e);
    }

    /** Permission to switch on, isolation and OFF. */
    method Decides(e: Event)
      requires Valid() && (e.RequestOnEvent? || e.ShouldIsolateEvent? || e.OffEvent? || e.CorrectiveOffEvent?)
      modifies Repr()
      ensures Valid() && fresh(Repr() - old(Repr()))
      ensures Model() == Step(old(Model()), e)
    {
      hide P.RequestOn, P.Reconcile, P.OffAttempt, P.IsolationOff, P.Verdict, P.OrdersOff, P.CorrectiveOff;
      match e
      case RequestOnEvent(i, now, maxDelta, jumped) => var _, _ := RequestOn(i, now, maxDelta, jumped);
      case ShouldIsolateEvent(i, now, maxDelta) => var _ := ShouldIsolate(i, now, maxDelta);
      case OffEvent(i, now) => OffAttempt(i, now);
      case CorrectiveOffEvent(i, now) => var _ := IsolationOffAttempt(i, now);
    }

    /** Rounds and readings. */
    method Samples(e: Event)
      requires Valid()
      requires e.BeginRoundEvent? || e.ClaimRoundEvent? || e.StopSamplingEvent? || e.ObserveEvent? || e.AcquireEvent?
      modifies Repr()
      ensures Valid() && fresh(Repr() - old(Repr()))
      ensures Model() == Step(old(Model()), e)
    {
      hide P.BeginRound, P.ClaimRound, P.StopSampling, P.ObserveFrame, P.ObserveAcquisition, P.PromptsDecision,
        P.Opens, P.Claims;
      match e
      case BeginRoundEvent(now) => var _ := BeginRound(now);
      case ClaimRoundEvent(i, now) => var _ := ClaimRound(i, now);
      case StopSamplingEvent => StopSampling();
      case ObserveEvent(i, data, now) => ObserveFrame(i, data, now);
      case AcquireEvent(i, id, sample) => var _ := ObserveAcquisition(i, id, sample);
    }

    /** Everything reported about roles, tags, the vehicle and its motion. */
    method Reports(e: Event)
      requires Valid()
      requires || e.SetRoleEvent? || e.SetVehicleEvent? || e.SetSeatboxEvent? || e.TagEvent? || e.FailEvent?
               || e.AbsentEvent? || e.MotionEvent? || e.ResetMotionEvent?
      modifies Repr()
      ensures Valid() && fresh(Repr() - old(Repr()))
      ensures Model() == Step(old(Model()), e)
    {
      hide P.SetRole, P.SetVehicle, P.SetSeatbox, P.Tag, P.FailAcquisition, P.ObserveAbsent, P.ReceiveMotion,
        P.ResetMotion;
      match e
      case SetRoleEvent(i, eligible) => SetRole(i, eligible);
      case SetVehicleEvent(v, now, jumped) => SetVehicle(v, now, jumped);
      case SetSeatboxEvent(closed) => SetSeatbox(closed);
      case TagEvent(i, uid) => Tag(i, uid);
      case FailEvent(i) => FailAcquisition(i, 0, NO_ACQUISITION);
      case AbsentEvent(i, now) => ObserveAbsent(i, now);
      case MotionEvent(report, now, jumped) => var _ := ReceiveMotion(report, now, jumped);
      case ResetMotionEvent => ResetMotion();
    }
  }

  /** The states a sequence of events passes through. */
  ghost function Trace(st: State, events: seq<Event>): (r: seq<State>)
    ensures |r| == |events| + 1
  {
    if events == [] then [st]
    else
      var n := |events| - 1;
      var t := Trace(st, events[..n]);
      t + [Step(t[n], events[n])]
  }

  /** The rest of the service keeps its side at every step. */
  ghost predicate Permitted(st: State, events: seq<Event>) {
    forall k | 0 <= k < |events| :: Allowed(Trace(st, events)[k], events[k])
  }

  lemma {:induction false} TraceSteps(st: State, events: seq<Event>)
    ensures Trace(st, events)[0] == st
    ensures forall k | 0 <= k < |events| :: Trace(st, events)[k + 1] == Step(Trace(st, events)[k], events[k])
  {
    hide Step;
    if events != [] {
      TraceSteps(st, events[..|events| - 1]);
    }
  }

  lemma TraceIsRun(readers: seq<Reader>, conservative: bool, sampling: bool, motion: bool, events: seq<Event>)
    requires Permitted(Initial(readers, conservative, sampling, motion), events)
    ensures IsRun(Run(Trace(Initial(readers, conservative, sampling, motion), events), events))
  {
    hide Step, Initial;
    TraceSteps(Initial(readers, conservative, sampling, motion), events);
  }

  /** A coordinator that has served any permitted calls is in the last state of a run, so every
      property of runs is a property of the object, the invariant among them. */
  method Serve(readers: seq<Reader>, conservative: bool, sampling: bool, motion: bool, events: seq<Event>)
    returns (a: PackAdmission)
    requires Permitted(Initial(readers, conservative, sampling, motion), events)
    ensures fresh(a) && a.Valid() && fresh(a.Repr())
    ensures a.Model() == Trace(Initial(readers, conservative, sampling, motion), events)[|events|]
    ensures Invariant.Inv(a.Model())
  {
    hide Initial, Step, Invariant.Inv;
    ghost var start := Initial(readers, conservative, sampling, motion);
    TraceIsRun(readers, conservative, sampling, motion, events);
    Invariant.ReachableInv(Run(Trace(start, events), events), |events|);
    TraceSteps(start, events);
    a := new PackAdmission(readers, conservative, sampling, motion);
    for k := 0 to |events|
      invariant a.Valid() && fresh(a.Repr())
      invariant a.Model() == Trace(start, events)[k]
    {
      a.Dispatch(events[k]);
    }
  }
}

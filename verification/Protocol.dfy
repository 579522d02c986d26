/** The coordinator's operations as functions from state to state. Each public Go
    method holds one mutex throughout, so each is one atomic step. */
module Protocol {
  import opened Domain

  // ----- Sliding sample window (admission.go) -----

  /** Drop leading samples while three remain and the second still spans the window. */
  function Pruned(h: seq<Sample>, now: int): seq<Sample> {
    if |h| > 3 && now - h[1].at >= STABLE_TIME then Pruned(h[1..], now) else h
  }

  function Appended(h: seq<Sample>, x: Sample): seq<Sample> {
    var kept := if |h| > 0 && x.at - h[|h| - 1].at > MAX_AGE then [] else h;
    Pruned(kept + [x], x.at)
  }

  // ----- Paired sampling rounds (sampling.go) -----

  function Clear(s: Slot, b: bool): Slot {
    s.(history := if b then [] else s.history)
  }

  /** End the round and forget the pair when `unpair`; empty both windows when `clear`. */
  function Wipe(st: State, unpair: bool, clear: bool): State {
    st.(sampling := st.sampling.(round := if unpair then None else st.sampling.round,
                                 pairedAt := if unpair then 0 else st.sampling.pairedAt,
                                 pairedId := if unpair then 0 else st.sampling.pairedId),
        slots := Pair(Clear(st.slots.first, clear), Clear(st.slots.second, clear)))
  }

  /** `cancelRoundLocked`. */
  function CancelRound(st: State): State {
    Wipe(st, true, st.sampling.enabled)
  }

  /** `cancelRoundLocked` followed by the loop that clears both windows. */
  function DropEvidence(st: State): State {
    Wipe(st, true, true)
  }

  predicate NeedsPoll(st: State) {
    st.coordinated &&
    if st.sampling.enabled then
      && st.slots.first.monitored && st.slots.second.monitored
      && (st.slots.first.eligible || st.slots.second.eligible)
    else
      NonDriving(st.vehicle) && (WantsPoll(st.slots.first) || WantsPoll(st.slots.second))
  }

  predicate WantsPoll(s: Slot) {
    s.monitored && s.eligible && (((!s.active || s.requiresAdmission) && !s.absent) || s.offPending)
  }

  predicate OpenRound(st: State, now: int) {
    st.sampling.round.Some? && now - st.sampling.round.value.openedAt <= ROUND_DEADLINE
  }

  predicate Opens(st: State, now: int) {
    && !OpenRound(st, now)
    && st.sampling.enabled && !st.sampling.stopped
    && st.slots.first.monitored && st.slots.second.monitored && NeedsPoll(st)
  }

  function BeginRound(st: State, now: int): State {
    var c := Wipe(st, !OpenRound(st, now) && st.sampling.round.Some?,
                  !OpenRound(st, now) && st.sampling.round.Some? && st.sampling.enabled);
    var id := c.sampling.next + 1;
    c.(sampling := c.sampling.(next := if Opens(st, now) then id else c.sampling.next,
                               round := if Opens(st, now) then Some(NewRound(id, now)) else c.sampling.round))
  }

  function NewRound(id: nat, now: int): Round {
    Round(id, now, Pair(false, false), Pair(NO_ACQUISITION, NO_ACQUISITION))
  }

  predicate Claims(st: State, i: Index, now: int) {
    && st.sampling.round.Some?
    && var r := st.sampling.round.value;
    && !r.claimed.At(i)
    && r.openedAt <= now && now - r.openedAt <= ROUND_DEADLINE
  }

  function ClaimRound(st: State, i: Index, now: int): State {
    if Claims(st, i, now) then
      var r := st.sampling.round.value;
      st.(sampling := st.sampling.(round := Some(r.(claimed := r.claimed.With(i, true)))))
    else st
  }

  function StopSampling(st: State): State {
    CancelRound(st.(sampling := st.sampling.(stopped := true)))
  }

  function Min(a: int, b: int): int { if a < b then a else b }

  function Max(a: int, b: int): int { if a < b then b else a }

  /** Length of the union of two STATUS0 intervals. */
  function Span(a: Acquisition, b: Acquisition): int {
    Max(a.end, b.end) - Min(a.start, b.start)
  }

  predicate HasInactiveCandidate(st: State) {
    !st.sampling.stopped && (Candidate(st.slots.first) || Candidate(st.slots.second))
  }

  predicate Candidate(s: Slot) {
    s.eligible && !s.absent && !s.held && !s.offPending && !s.active
  }

  // ----- Roles, vehicle, seatbox, tags, failed and absent reads (admission.go) -----

  function SetRole(st: State, i: Index, eligible: bool): State {
    var c := DropEvidence(st);
    var s := c.slots.At(i);
    var d := c.Put(i, s.(eligible := eligible, powerTracked := s.powerTracked || eligible));
    d.(coordinated := d.coordinated || (d.slots.first.eligible && d.slots.second.eligible))
  }

  predicate VehicleShift(from: Vehicle, to: Vehicle) {
    from != to && !(NonDriving(from) && NonDriving(to))
  }

  function SetVehicle(st: State, v: Vehicle, now: int, jumped: bool): State {
    var shift := VehicleShift(st.vehicle, v);
    var drop := shift && !StoppedMotionFresh(st.motion, now, jumped);
    Wipe(st, drop, drop).(vehicle := v, motion := Checked(st.motion, jumped && shift))
  }

  function SeatboxInvalid(s: Slot): Slot {
    s.(valid := false, history := [], observedRound := 0,
       requiresAdmission := s.requiresAdmission || !s.held || !s.active)
  }

  function SetSeatbox(st: State, closed: bool): State {
    if !st.seatboxKnown then st.(seatboxKnown := true, seatboxClosed := closed)
    else if st.seatboxClosed == closed then st
    else SeatboxMoved(st).(seatboxClosed := closed)
  }

  function SeatboxMoved(st: State): State {
    var c := DropEvidence(st);
    c.(slots := Pair(SeatboxInvalid(c.slots.first), SeatboxInvalid(c.slots.second)))
  }

  function Retagged(s: Slot, uid: string, parked: bool): Slot {
    var t := s.Renamed(uid, s.uid != uid);
    t.(valid := false, haveFrame := false, written := 0, history := [], absent := false,
       requiresAdmission := t.requiresAdmission || (s.uid == uid && parked))
  }

  function Tag(st: State, i: Index, uid: string): State {
    var c := CancelRound(st);
    c.Put(i, Retagged(c.slots.At(i), uid, NonDriving(st.vehicle)))
  }

  function FailAcquisition(st: State, i: Index): State {
    var c := CancelRound(st);
    c.Put(i, Failed(c.slots.At(i)))
  }

  function Failed(s: Slot): Slot {
    s.(valid := false, absent := false, history := [])
  }

  function ObserveAbsent(st: State, i: Index, now: int): State {
    var c := CancelRound(st);
    c.Put(i, Gone(c.slots.At(i), now, NonDriving(st.vehicle)))
  }

  function Gone(s: Slot, now: int, parked: bool): Slot {
    s.(valid := false, haveFrame := false, written := 0, observedRound := 0, history := [],
       requiresAdmission := s.requiresAdmission || parked, absent := !s.held, observed := now)
  }

  // ----- Observations (admission.go, sampling.go) -----

  predicate SerialSwap(s: Slot, data: Frame) {
    s.serial != "" && data.serial != "" && s.serial != data.serial
  }

  /** Settle which pack the frame belongs to. */
  function Identified(s: Slot, data: Frame): Slot {
    var t := s.(powerTracked := s.powerTracked || data.state.Active?);
    var u := t.Renamed(t.uid, SerialSwap(s, data));
    u.(serial := if data.serial != "" then data.serial else u.serial)
  }

  /** Record the frame and judge whether it may be used. */
  function Received(s: Slot, data: Frame, now: int): Slot {
    var written := if s.haveFrame && FrameChanged(s.frame, data) then now else s.written;
    var valid := Measured(data) && written != 0;
    s.(observedRound := 0, written := written, frame := data, haveFrame := true, observed := now, absent := false,
       valid := valid, history := if valid then s.history else [])
  }

  /** The slot after reading `data`, before its power meaning is settled. */
  function Read(s: Slot, data: Frame, now: int): Slot {
    Received(Identified(s, data), data, now)
  }

  predicate ShowsOn(s: Slot) {
    s.valid && s.frame.state.Active?
  }

  predicate ShowsOff(s: Slot, now: int) {
    s.valid && !s.frame.state.Active? && s.OffProven(now)
  }

  /** What a valid frame proves about power. Only here can a reservation end. */
  function Resolved(s: Slot, on: bool, off: bool): Slot {
    s.(held := on || (s.held && !off),
       active := on || (s.active && !off),
       offPending := s.offPending && !off,
       identityUncertain := s.identityUncertain && !on && !off)
  }

  /** The slot after a frame, apart from its window. */
  function Settled(s: Slot, data: Frame, now: int): Slot {
    var read := Read(s, data, now);
    Resolved(read, ShowsOn(read), ShowsOff(read, now))
  }

  /** The frame ends a reservation. */
  predicate Releases(s: Slot, data: Frame, now: int) {
    s.held && ShowsOff(Read(s, data, now), now)
  }

  /** What the same frame does to an episode. */
  function EpisodeAfter(isolation: Option<Episode>, i: Index, on: bool, off: bool): Option<Episode> {
    match isolation
    case None => None
    case Some(e) =>
      if on then (if e.handover && e.offConfirmed && e.survivor == i then None else isolation)
      else if off then
        if e.victim == i then (if e.handover then Some(e.(offConfirmed := true)) else None)
        else if !e.handover && e.survivor == i && !e.attempted then None
        else isolation
      else isolation
  }

  function ObserveFrame(st: State, i: Index, data: Frame, now: int): State {
    var s := st.slots.At(i);
    var read := Read(s, data, now);
    var swap, lost := SerialSwap(s, data), Releases(s, data, now);
    var kept := if lost then [] else read.history;
    var logs := read.valid && !(st.sampling.enabled && st.coordinated);
    Wipe(st, swap || lost, (swap && st.sampling.enabled) || lost)
      .Put(i, Settled(s, data, now).(history := if logs then Appended(kept, Sample(data, now)) else kept))
      .(isolation := EpisodeAfter(st.isolation, i, ShowsOn(read), ShowsOff(read, now)))
  }

  predicate Timely(r: Round, a: Acquisition) {
    && r.openedAt <= a.start <= a.end <= a.complete
    && a.complete - r.openedAt <= ROUND_DEADLINE
    && a.complete - a.start <= FRAME_LIMIT
  }

  predicate Current(s: Slot, a: Acquisition, now: int) {
    s.Fresh(now) && s.observed == a.complete
  }

  /** The second timely sample of a round, close enough to the first, makes a pair. */
  predicate Pairs(st: State, r: Round, now: int) {
    && Span(r.samples.first, r.samples.second) <= PAIR_SKEW
    && Current(st.slots.first, r.samples.first, now)
    && Current(st.slots.second, r.samples.second, now)
  }

  function WithPair(st: State, r: Round): State {
    var p, q := r.samples.first, r.samples.second;
    var s, t := st.slots.first, st.slots.second;
    st.(slots := Pair(s.(history := Appended(s.history, Sample(p.data, p.start))),
                      t.(history := Appended(t.history, Sample(q.data, q.start)))),
        sampling := st.sampling.(round := None, pairedAt := Min(p.start, q.start), pairedId := r.id))
  }

  /** Whether a delivered sample belongs to the open round and this reader's claim. */
  predicate Belongs(st: State, i: Index, id: nat) {
    id != 0 && st.sampling.round.Some? && st.sampling.round.value.id == id
    && st.sampling.round.value.claimed.At(i)
  }

  predicate MayRun(s: Slot) {
    s.powerTracked || s.held || s.offPending
  }

  function Stored(r: Round, i: Index, a: Acquisition): Round {
    r.(samples := r.samples.With(i, a))
  }

  /** A first delivery that is neither slow nor stale. */
  predicate Sound(st: State, i: Index, a: Acquisition)
    requires st.sampling.round.Some?
  {
    Timely(st.sampling.round.value, a) && st.slots.At(i).Fresh(a.complete)
  }

  /** The delivery completes the round's pair. */
  predicate Completes(st: State, i: Index, a: Acquisition)
    requires st.sampling.round.Some?
  {
    var r := st.sampling.round.value;
    && Sound(st, i, a) && MayRun(st.slots.At(1 - i))
    && r.samples.At(1 - i).complete != 0 && Pairs(st, Stored(r, i, a), a.complete)
  }

  /** Store a first delivery of the open round and pair it when its partner is there. */
  function Deliver(st: State, i: Index, a: Acquisition): State
    requires st.sampling.round.Some?
  {
    var r := st.sampling.round.value;
    if Completes(st, i, a) then WithPair(st, Stored(r, i, a))
    else if Sound(st, i, a) && MayRun(st.slots.At(1 - i)) && r.samples.At(1 - i).complete == 0 then
      st.(sampling := st.sampling.(round := Some(Stored(r, i, a))))
    else CancelRound(st)
  }

  /** The frame is tracked whether or not it pairs. */
  function Noted(st: State, i: Index, id: nat, a: Acquisition): State {
    var seen := ObserveFrame(st, i, a.data, a.complete);
    seen.Put(i, seen.slots.At(i).(observedRound := id))
  }

  /** What becomes of the round once the frame has been noted. */
  function Filed(noted: State, i: Index, id: nat, a: Acquisition): State {
    if !noted.sampling.enabled || !noted.coordinated then noted
    else if !Belongs(noted, i, id) then CancelRound(noted)
    else if noted.sampling.round.value.samples.At(i).complete != 0 then noted
    else Deliver(noted, i, a)
  }

  /** The delivery finishes a pair, or a read that needs no partner. */
  predicate Concludes(noted: State, i: Index, id: nat, a: Acquisition) {
    && noted.sampling.enabled && noted.coordinated && Belongs(noted, i, id)
    && noted.sampling.round.value.samples.At(i).complete == 0
    && Sound(noted, i, a)
    && (!MayRun(noted.slots.At(1 - i)) || Completes(noted, i, a))
  }

  function ObserveAcquisition(st: State, i: Index, id: nat, a: Acquisition): State {
    Filed(Noted(st, i, id, a), i, id, a)
  }

  /** Whether the reader should prompt a new decision: a first confirmation of the
      tag, a completed pair or a completed single-supply read, with a pack to start. */
  predicate PromptsDecision(st: State, i: Index, id: nat, a: Acquisition) {
    var noted := Noted(st, i, id, a);
    HasInactiveCandidate(noted)
    && (Concludes(noted, i, id, a) || (st.slots.At(i).written == 0 && noted.slots.At(i).valid))
  }

  // ----- Motion evidence (stopped_admission.go, motion_ipc.go) -----

  function Unmoved(m: Motion): Motion {
    m.(at := 0, since := 0, stopped := false)
  }

  /** `jumped` says that wall and monotonic clocks disagree by over 5 ms since the last check. */
  predicate ClockJump(m: Motion, jumped: bool) {
    m.lastCheck != 0 && jumped
  }

  function Checked(m: Motion, jumped: bool): Motion {
    if ClockJump(m, jumped) then Unmoved(m) else m
  }

  predicate StoppedMotionFresh(m: Motion, now: int, jumped: bool) {
    && !ClockJump(m, jumped)
    && m.enabled && m.stopped && m.since != 0 && m.at <= now && now - m.at <= MOTION_MAX_AGE
  }

  /** A report the window refuses: undated, from the future, old, or not newer than the last. */
  predicate Refused(m: Motion, received: int, now: int) {
    received == 0 || received > now || now - received > MOTION_MAX_AGE || (m.at != 0 && received <= m.at)
  }

  /** A first report or a change between stopped and moving. */
  predicate Turns(m: Motion, stopped: bool, received: int, now: int) {
    !Refused(m, received, now) && (m.at == 0 || m.stopped != stopped)
  }

  function Moved(m: Motion, stopped: bool, received: int, now: int): Motion {
    if Refused(m, received, now) then Unmoved(m)
    else
      m.(at := received, stopped := stopped,
         since := if !stopped then 0
                  else if !m.stopped || received - m.at > MOTION_MAX_AGE then received
                  else m.since)
  }

  predicate Continues(m: Motion, report: MotionReport) {
    report.source == m.source && report.sequence == m.sequence + 1
  }

  /** A report that takes part in the stream: well formed and not a repeat. */
  predicate Heard(m: Motion, report: MotionReport) {
    report.wellFormed && report.sequence != 0 && !(report.source == m.source && report.sequence <= m.sequence)
  }

  function Tuned(m: Motion, report: MotionReport): Motion {
    (if Continues(m, report) then m else Unmoved(m)).(source := report.source, sequence := report.sequence)
  }

  /** A report whose measurement is complete and recent. */
  predicate Dated(report: MotionReport, now: int) {
    && report.Complete()
    && report.observedAt.value != 0 && report.observedAt.value <= now
    && now - report.observedAt.value <= MOTION_MAX_AGE
  }

  function MotionAfter(m: Motion, report: MotionReport, now: int, jumped: bool): Motion {
    var c := Checked(m, jumped).(lastCheck := now);
    if !Heard(c, report) then Unmoved(c)
    else if !Dated(report, now) then Unmoved(Tuned(c, report))
    else Moved(Tuned(c, report), report.Stopped(), report.observedAt.value, now)
  }

  predicate MotionTurns(m: Motion, report: MotionReport, now: int, jumped: bool) {
    var c := Checked(m, jumped).(lastCheck := now);
    && Heard(c, report) && Dated(report, now)
    && Turns(Tuned(c, report), report.Stopped(), report.observedAt.value, now)
  }

  function ReceiveMotion(st: State, report: MotionReport, now: int, jumped: bool): State {
    var turns := MotionTurns(st.motion, report, now, jumped);
    Wipe(st, turns, turns).(motion := MotionAfter(st.motion, report, now, jumped))
  }

  function ResetMotion(st: State): State {
    st.(motion := Unmoved(st.motion).(source := "", sequence := 0))
  }

  predicate PairOfStop(st: State, s: Slot) {
    && s.observedRound == st.sampling.pairedId && s.observed <= st.motion.at
    && |s.history| > 0 && st.motion.since <= s.history[0].at
  }

  predicate StoppedPairReady(st: State, now: int, jumped: bool) {
    && StoppedMotionFresh(st.motion, now, jumped)
    && st.sampling.enabled && !st.sampling.stopped && st.sampling.pairedId != 0
    && st.motion.since <= st.sampling.pairedAt <= now && now - st.sampling.pairedAt <= STOPPED_PAIR_AGE
    && PairOfStop(st, st.slots.first) && PairOfStop(st, st.slots.second)
  }

  predicate SecondPackStationary(st: State, now: int, jumped: bool) {
    if NonDriving(st.vehicle) then
      var m := st.motion;
      m.at == 0 || now < m.at || now - m.at > MOTION_MAX_AGE || m.stopped
    else StoppedPairReady(st, now, jumped)
  }

  // ----- Isolation and handover (admission_isolation.go) -----

  predicate Aligned(st: State) {
    -MAX_SKEW <= st.slots.first.observed - st.slots.second.observed <= MAX_SKEW
  }

  predicate Paired(st: State, now: int) {
    && st.sampling.pairedAt != 0 && now - st.sampling.pairedAt <= MAX_AGE
    && st.slots.first.observedRound == st.sampling.pairedId
    && st.slots.second.observedRound == st.sampling.pairedId
  }

  predicate PairCurrent(st: State, now: int) {
    Aligned(st) && (!st.sampling.enabled || Paired(st, now))
  }

  predicate BothFresh(st: State, now: int) {
    st.slots.first.Fresh(now) && st.slots.second.Fresh(now)
  }

  function Gap(st: State): nat {
    Distance(st.slots.first.frame.voltage, st.slots.second.frame.voltage)
  }

  /** Whether an existing episode ends on review. */
  predicate Dropped(st: State, e: Episode, now: int, maxDelta: nat) {
    var target, prior := st.slots.At(e.survivor), st.slots.At(e.victim);
    || (!e.attempted && maxDelta == 0)
    || (e.handover && !e.attempted && PairCurrent(st, now) && BothFresh(st, now)
        && (!target.Usable() || target.frame.voltage <= prior.frame.voltage || maxDelta == 0
            || Distance(target.frame.voltage, prior.frame.voltage) <= maxDelta))
    || (e.handover && e.offConfirmed && !target.held && !prior.held
        && (target.KnownAbsent(now) || !target.Usable()
            || (prior.Usable() && prior.frame.voltage > target.frame.voltage)))
  }

  /** The preferred survivor of a mismatch: higher voltage first, if it can be used. */
  function Survivor(st: State): Index {
    var high := if st.slots.second.frame.voltage > st.slots.first.frame.voltage then 1 else 0;
    if st.slots.At(high).Usable() then high else 1 - high
  }

  predicate Mismatched(st: State, now: int, maxDelta: nat) {
    && st.coordinated && maxDelta != 0 && NonDriving(st.vehicle)
    && !st.slots.first.offPending && !st.slots.second.offPending && BothFresh(st, now)
    && PairCurrent(st, now) && Gap(st) > maxDelta
  }

  predicate Running(s: Slot) {
    s.held && s.active && s.frame.state.Active?
  }

  ghost function Selected(st: State, now: int, maxDelta: nat): Option<Episode> {
    var survivor := Survivor(st);
    var target, victim := st.slots.At(survivor), st.slots.At(1 - survivor);
    if !Mismatched(st, now, maxDelta) || !target.Usable() || !Running(victim) then None
    else if Running(target) then
      if target.requiresAdmission then None
      else Some(Episode(survivor, 1 - survivor, false, false, false))
    else if && st.conservative && !target.held && Inactive(target.frame.state)
            && target.Stable(now) && victim.Stable(now) then
      Some(Episode(survivor, 1 - survivor, false, true, false))
    else None
  }

  ghost function Reconcile(st: State, now: int, maxDelta: nat): State {
    st.(isolation := match st.isolation
                     case Some(e) => if Dropped(st, e, now, maxDelta) then None else st.isolation
                     case None => Selected(st, now, maxDelta))
  }

  ghost predicate IsolationReady(st: State, now: int) {
    && st.isolation.Some? && NonDriving(st.vehicle)
    && var e := st.isolation.value;
    var s := st.slots.At(e.survivor);
    if e.handover then
      && !e.offConfirmed && !s.held && !s.offPending && s.Fresh(now) && s.Usable() && Inactive(s.frame.state)
      && (e.attempted || (PairCurrent(st, now) && s.Stable(now) && st.slots.At(e.victim).Stable(now)))
    else
      Running(s) && !s.requiresAdmission && !s.offPending && s.Fresh(now) && s.Usable()
  }

  /** The victim of an attempted handover is still the only supply while driving. */
  predicate KeepsHandover(st: State, i: Index, now: int) {
    && st.isolation.Some?
    && var e := st.isolation.value;
    var prior, target := st.slots.At(e.victim), st.slots.At(e.survivor);
    && e.handover && e.attempted && !e.offConfirmed && e.victim == i && st.vehicle.ReadyToDrive?
    && Running(prior) && !prior.requiresAdmission && prior.Fresh(now)
    && prior.observed > prior.offAt && now - prior.offAt >= COMMAND_TIME
    && !target.held && !target.offPending
    && (target.KnownAbsent(now) || (target.Fresh(now) && Inactive(target.frame.state)))
  }

  /** The answer of `shouldIsolate`, on the reconciled state. */
  ghost predicate OrdersOff(st: State, i: Index, now: int) {
    && !KeepsHandover(st, i, now)
    && st.isolation.Some?
    && var e := st.isolation.value;
    e.victim == i && !e.offConfirmed && (e.attempted || IsolationReady(st, now))
  }

  function OffAttempt(st: State, i: Index, now: int): State {
    var c := DropEvidence(st);
    c.Put(i, Commanded(c.slots.At(i), now)).(isolation := Attempted(st.isolation, i))
  }

  function Attempted(isolation: Option<Episode>, i: Index): Option<Episode> {
    if isolation.Some? && isolation.value.victim == i then Some(isolation.value.(attempted := true)) else isolation
  }

  /** An OFF command is recorded once, and again only after a later ON. */
  function Commanded(s: Slot, now: int): Slot {
    var anew := s.held && (!s.offPending || s.lastOnAt > s.offAt);
    s.(offPending := s.offPending || anew, offAt := if anew then now else s.offAt)
  }

  ghost predicate CorrectiveOff(st: State, i: Index, now: int) {
    st.isolation.Some? && st.isolation.value.victim == i && IsolationReady(st, now)
  }

  ghost function IsolationOff(st: State, i: Index, now: int): State {
    if CorrectiveOff(st, i, now) then OffAttempt(st, i, now) else st
  }

  // ----- Permission to switch on (admission.go) -----

  /** The tightened limit every pair of window samples must meet in conservative mode. */
  function StrictLimit(maxDelta: nat): nat {
    maxDelta - (if maxDelta / 10 < 100 then maxDelta / 10 else 100)
  }

  ghost predicate WindowsAgree(a: seq<Sample>, b: seq<Sample>, limit: nat) {
    forall j, k | 0 <= j < |a| && 0 <= k < |b| :: Distance(a[j].data.voltage, b[k].data.voltage) <= limit
  }

  /** Admission next to a running peer; None when nothing objects. */
  ghost function JoinObjection(st: State, i: Index, now: int, maxDelta: nat, jumped: bool): (r: Option<Reason>)
    ensures r.Some? ==> !r.value.Granted()
  {
    var s, peer := st.slots.At(i), st.slots.At(1 - i);
    if !SecondPackStationary(st, now, jumped) then Some(WaitingForStationary)
    else if !NonDriving(st.vehicle) && peer.requiresAdmission then Some(WaitingForQualifiedPeer)
    else if !peer.active || peer.offPending then Some(WaitingForPeerPower)
    else if peer.Depleted() then Some(PeerUnusable)
    else if st.sampling.enabled && !Paired(st, now) then Some(WaitingForPair)
    else if !Aligned(st) then Some(WaitingForAlignment)
    else if maxDelta > 0 && Gap(st) > maxDelta then Some(VoltageTooFar)
    else if st.conservative || !NonDriving(st.vehicle) then
      if !s.Stable(now) || !peer.Stable(now) then Some(WaitingForStability)
      else if maxDelta > 0 && !WindowsAgree(s.history, peer.history, StrictLimit(maxDelta)) then Some(VoltageTooFar)
      else None
    else None
  }

  /** Whether the peer, inactive and usable, is the one to start first. */
  function SelectionObjection(st: State, i: Index): (r: Option<Reason>)
    ensures r.Some? ==> !r.value.Granted()
  {
    var s, peer := st.slots.At(i), st.slots.At(1 - i);
    if !st.conservative then (if i > 0 then Some(PrimarySelected) else None)
    else if || peer.frame.voltage > s.frame.voltage
            || (peer.frame.voltage == s.frame.voltage && peer.frame.charge > s.frame.charge)
            || (peer.frame.voltage == s.frame.voltage && peer.frame.charge == s.frame.charge && i > 0)
    then Some(HigherVoltageSelected) else None
  }

  ghost function PeerObjection(st: State, i: Index, now: int, maxDelta: nat, jumped: bool): (r: Option<Reason>)
    ensures r.Some? ==> !r.value.Granted()
  {
    var peer := st.slots.At(1 - i);
    if !peer.monitored || !MayRun(peer) then None
    else if !peer.KnownAbsent(now) && !peer.Fresh(now) then Some(WaitingForPeerData)
    else if peer.held then JoinObjection(st, i, now, maxDelta, jumped)
    else if !peer.KnownAbsent(now) && peer.Usable() then SelectionObjection(st, i)
    else None
  }

  /** The full qualification path, for a slot that is not merely being kept alive. */
  ghost function Qualify(st: State, i: Index, now: int, maxDelta: nat, jumped: bool): Reason {
    var s, peer := st.slots.At(i), st.slots.At(1 - i);
    if st.sampling.stopped then ServiceStopping
    else if !NonDriving(st.vehicle) && (!st.vehicle.ReadyToDrive? || peer.held || peer.offPending) then
      WaitingForNonDrive
    else if s.held && !s.active && now - s.onAt > ON_SETTLE then WaitingForOn
    else if !s.Fresh(now) then WaitingForData
    else if !s.Usable() then PackUnusable
    else
      match PeerObjection(st, i, now, maxDelta, jumped)
      case Some(reason) => reason
      case None => if !s.held then Admitted else if s.requiresAdmission then Requalified else AwaitingOn
  }

  /** The decision of `requestOn`, on the reconciled state. */
  ghost function Decide(st: State, i: Index, now: int, maxDelta: nat, jumped: bool): Reason {
    var s, e := st.slots.At(i), st.isolation;
    if !s.eligible then InactiveRole
    else if s.offPending then (if KeepsHandover(st, i, now) then MaintainingHandover else WaitingForOff)
    else if e.Some? && e.value.victim == i && (e.value.attempted || IsolationReady(st, now) || !s.held || !s.active)
    then IsolatingPack
    else if e.Some? && e.value.handover && e.value.survivor == i && !e.value.offConfirmed then WaitingForHandover
    else if s.identityUncertain && s.held && !s.active then WaitingForTagPower
    else if s.held && s.active && !s.requiresAdmission then MaintainingSupply
    else Qualify(st, i, now, maxDelta, jumped)
  }

  /** The effect of a decision. */
  function Enact(st: State, i: Index, now: int, reason: Reason): State {
    var drop := reason.Requalified? || reason.Admitted?;
    var base := Wipe(st, drop, drop);
    base.Put(i, Switched(base.slots.At(i), now, reason))
  }

  function Switched(s: Slot, now: int, reason: Reason): Slot {
    s.(held := s.held || reason.Admitted?,
       onAt := if reason.Admitted? then now else s.onAt,
       lastOnAt := if reason.Granted() then now else s.lastOnAt,
       requiresAdmission := s.requiresAdmission && !reason.Granted())
  }

  ghost function Verdict(st: State, i: Index, now: int, maxDelta: nat, jumped: bool): Reason {
    Decide(Reconcile(st, now, maxDelta), i, now, maxDelta, jumped)
  }

  ghost function RequestOn(st: State, i: Index, now: int, maxDelta: nat, jumped: bool): State {
    Enact(Reconcile(st, now, maxDelta), i, now, Verdict(st, i, now, maxDelta, jumped))
  }
}

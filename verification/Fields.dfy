/** The step relation turned round: for each field of a slot, the events that write it and what
    they write, told from the event and the old fields alone. */
module Fields {
  import opened Domain
  import opened Protocol
  import opened Runs
  import opened Invariant
  import opened Effects
  import opened Decisions

  // ----- A reading judged from the fields -----

  /** States in which the vehicle drives, may drive, or is unknown. */
  predicate MayDrive(v: Vehicle) {
    v == ReadyToDrive || v == OtherVehicle || v.Unlisted?
  }

  lemma NonDrivingExactly(v: Vehicle)
    ensures NonDriving(v) <==> !MayDrive(v)
  {}

  predicate AnotherSerial(s: Slot, data: Frame) {
    s.serial != "" && data.serial != "" && data.serial != s.serial
  }

  /** The frames disagree on something other than presence, faults, the charge warning and the serial. */
  predicate Differs(a: Frame, b: Frame) {
    a.(present := b.present, faultCode := b.faultCode, lowSoc := b.lowSoc, serial := b.serial) != b
  }

  predicate Complete(data: Frame) {
    data.present && data.voltage > 0 && data.state in {Active, Idle, Asleep}
  }

  /** When the payload last moved, after this reading; 0 when it never did under this identity. */
  function MovedAt(s: Slot, data: Frame, now: int): int {
    if AnotherSerial(s, data) then 0
    else if s.haveFrame && Differs(s.frame, data) then now
    else s.written
  }

  predicate Trusted(s: Slot, data: Frame, now: int) {
    Complete(data) && MovedAt(s, data, now) != 0
  }

  predicate ReadsOn(s: Slot, data: Frame, now: int) {
    Trusted(s, data, now) && data.state.Active?
  }

  /** An inactive reading after OFF took effect, or long enough after the last ON. */
  predicate ReadsOff(s: Slot, data: Frame, now: int) {
    && Trusted(s, data, now) && !data.state.Active?
    && var moved := MovedAt(s, data, now);
    if s.offPending then
      s.lastOnAt <= s.offAt < moved && s.offAt + 400 * MILLISECOND <= now
    else
      s.lastOnAt < moved && s.lastOnAt + (if s.active then 400 * MILLISECOND else 10 * SECOND) <= now
  }

  predicate SeatboxTurns(st: State, e: Event) {
    e.SetSeatboxEvent? && st.seatboxKnown && e.closed != st.seatboxClosed
  }

  predicate NewTag(s: Slot, e: Event, i: Index) {
    e.TagEvent? && e.slot == i && e.uid != s.uid
  }

  /** The event is about slot `i` itself. */
  predicate Concerns(e: Event, i: Index) {
    (e.TagEvent? || e.AbsentEvent? || e.FailEvent?) && e.slot == i
  }

  // ----- What is known of the battery -----

  predicate EvidenceFields(s: Slot, e: Event, i: Index, turns: bool, t: Slot) {
    var gone := e.AbsentEvent? && e.slot == i;
    if Reads(e, i) then
      var data, now := ReadData(e), ReadTime(e);
      && t.uid == s.uid && t.serial == (if data.serial != "" then data.serial else s.serial)
      && t.frame == data && t.haveFrame && t.observed == now && !t.absent
      && t.written == MovedAt(s, data, now) && t.valid == Trusted(s, data, now)
      && t.observedRound == (if e.AcquireEvent? then e.id else 0)
    else
      && t.uid == (if NewTag(s, e, i) then e.uid else s.uid)
      && t.serial == (if NewTag(s, e, i) then "" else s.serial)
      && t.frame == (if NewTag(s, e, i) then NO_FRAME else s.frame)
      && t.observed == (if gone then e.now else if NewTag(s, e, i) then 0 else s.observed)
      && t.haveFrame == (s.haveFrame && !(Concerns(e, i) && !e.FailEvent?))
      && t.written == (if Concerns(e, i) && !e.FailEvent? then 0 else s.written)
      && t.valid == (s.valid && !Concerns(e, i) && !turns)
      && t.absent == (if gone then !s.held else s.absent && !Concerns(e, i))
      && t.observedRound == (if gone || turns || NewTag(s, e, i) then 0 else s.observedRound)
  }

  // ----- Roles and permission -----

  /** The event demands a new admission of slot `i`: another known battery, a tag or an absence
      reported while the vehicle cannot drive, or a moved seatbox and no confirmed supply. */
  predicate Demands(s: Slot, e: Event, i: Index, turns: bool, parked: bool) {
    || (NewTag(s, e, i) && (s.uid != "" || s.serial != "" || s.haveFrame))
    || (Reads(e, i) && AnotherSerial(s, ReadData(e)))
    || ((e.AbsentEvent? || e.TagEvent?) && e.slot == i && !NewTag(s, e, i) && parked)
    || (turns && !(s.held && s.active))
  }

  predicate DemandsAdmission(st: State, e: Event, i: Index) {
    Demands(st.slots.At(i), e, i, SeatboxTurns(st, e), !MayDrive(st.vehicle))
  }

  predicate RoleFields(s: Slot, e: Event, i: Index, demands: bool, granted: bool, t: Slot) {
    var role := e.SetRoleEvent? && e.slot == i;
    && t.monitored == s.monitored
    && t.eligible == (if role then e.eligible else s.eligible)
    && t.powerTracked == (s.powerTracked || (role && e.eligible) || (Reads(e, i) && ReadData(e).state.Active?))
    && t.requiresAdmission == ((s.requiresAdmission || demands) && !granted)
  }

  // ----- Power -----

  /** OFF is put on record: it is sent to a held slot that has none on record since its last ON. */
  ghost predicate RecordsOff(st: State, e: Event, i: Index) {
    var s := st.slots.At(i);
    CommandsOff(st, e, i) && s.held && (s.offPending ==> s.offAt < s.lastOnAt)
  }

  predicate PowerFields(s: Slot, e: Event, i: Index, records: bool, granted: bool, t: Slot) {
    var on := Reads(e, i) && ReadsOn(s, ReadData(e), ReadTime(e));
    var off := Reads(e, i) && ReadsOff(s, ReadData(e), ReadTime(e));
    var other := NewTag(s, e, i) || (Reads(e, i) && AnotherSerial(s, ReadData(e)));
    && t.held == (on || (s.held && !off) || granted)
    && t.active == (on || (s.active && !off && !other))
    && t.offPending == ((s.offPending && !off) || records)
    && (if records then Clock(e) == Some(t.offAt) else t.offAt == s.offAt)
    && (if granted && !s.held then Clock(e) == Some(t.onAt) else t.onAt == s.onAt)
    && (if granted then Clock(e) == Some(t.lastOnAt) else t.lastOnAt == s.lastOnAt)
    && t.identityUncertain == (if other then s.held else s.identityUncertain && !on && !off)
  }

  predicate SlotFields(
    s: Slot, e: Event, i: Index, turns: bool, demands: bool, records: bool, granted: bool, t: Slot)
  {
    && EvidenceFields(s, e, i, turns, t)
    && RoleFields(s, e, i, demands, granted, t)
    && PowerFields(s, e, i, records, granted, t)
  }

  ghost predicate AllFields(st: State, e: Event, i: Index, t: Slot) {
    SlotFields(st.slots.At(i), e, i, SeatboxTurns(st, e), DemandsAdmission(st, e, i), RecordsOff(st, e, i),
               Grants(st, e, i), t)
  }

  // ----- Each kind of event -----

  lemma ReadingSlot(s: Slot, data: Frame, now: int)
    ensures var t := Settled(s, data, now);
            && t.uid == s.uid && t.serial == (if data.serial != "" then data.serial else s.serial)
            && SerialSwap(s, data) == AnotherSerial(s, data)
            && !t.absent
  {
    hide FrameChanged, Measured, Slot.OffProven;
  }

  lemma ReadingJudged(s: Slot, data: Frame, now: int)
    ensures var read := Read(s, data, now);
            && read.written == MovedAt(s, data, now) && read.valid == Trusted(s, data, now)
            && ShowsOn(read) == ReadsOn(s, data, now)
            && ShowsOff(read, now) == ReadsOff(s, data, now)
  {
    DiffersExactly(s.frame, data);
    CompleteExactly(data);
    hide FrameChanged, Measured, Read, Differs, Complete;
    ReadPower(s, data, now);
  }

  lemma DiffersExactly(a: Frame, b: Frame)
    ensures FrameChanged(a, b) <==> Differs(a, b)
  {}

  lemma CompleteExactly(data: Frame)
    ensures Measured(data) <==> Complete(data)
  {}

  lemma FieldsOfReading(s: Slot, e: Event, i: Index)
    requires Reads(e, i)
    ensures var t := Settled(s, ReadData(e), ReadTime(e)).(observedRound := if e.AcquireEvent? then e.id else 0);
            SlotFields(s, e, i, false, AnotherSerial(s, ReadData(e)), false, false, t)
  {
    hide Read, Settled, ShowsOn, ShowsOff, SerialSwap, AnotherSerial, Differs, Complete, ReadsOn, ReadsOff, Trusted,
         MovedAt, EvidenceFields, RoleFields, PowerFields;
    var u := Settled(s, ReadData(e), ReadTime(e));
    var t := u.(observedRound := if e.AcquireEvent? then e.id else 0);
    ReadingEvidence(s, e, i, t);
    ReadingRole(s, e, i, t);
    ReadingPower(s, e, i, t);
  }

  lemma ReadingEvidence(s: Slot, e: Event, i: Index, t: Slot)
    requires Reads(e, i)
    requires t == Settled(s, ReadData(e), ReadTime(e)).(observedRound := if e.AcquireEvent? then e.id else 0)
    ensures EvidenceFields(s, e, i, false, t)
  {
    hide Read, Settled, ShowsOn, ShowsOff, SerialSwap, AnotherSerial, Trusted, MovedAt, ReadsOn, ReadsOff;
    SettledPower(s, ReadData(e), ReadTime(e));
    ReadPower(s, ReadData(e), ReadTime(e));
    ReadingSlot(s, ReadData(e), ReadTime(e));
    ReadingJudged(s, ReadData(e), ReadTime(e));
  }

  lemma ReadingRole(s: Slot, e: Event, i: Index, t: Slot)
    requires Reads(e, i)
    requires t == Settled(s, ReadData(e), ReadTime(e)).(observedRound := if e.AcquireEvent? then e.id else 0)
    ensures RoleFields(s, e, i, AnotherSerial(s, ReadData(e)), false, t)
  {
    hide Read, Settled, ShowsOn, ShowsOff, SerialSwap, AnotherSerial;
    SettledPower(s, ReadData(e), ReadTime(e));
    ReadingSlot(s, ReadData(e), ReadTime(e));
  }

  lemma ReadingPower(s: Slot, e: Event, i: Index, t: Slot)
    requires Reads(e, i)
    requires t == Settled(s, ReadData(e), ReadTime(e)).(observedRound := if e.AcquireEvent? then e.id else 0)
    ensures PowerFields(s, e, i, false, false, t)
  {
    hide Read, Settled, ShowsOn, ShowsOff, SerialSwap, AnotherSerial, Trusted, MovedAt, ReadsOn, ReadsOff;
    SettledPower(s, ReadData(e), ReadTime(e));
    ReadPower(s, ReadData(e), ReadTime(e));
    ReadingSlot(s, ReadData(e), ReadTime(e));
    ReadingJudged(s, ReadData(e), ReadTime(e));
    SwappedIsUnread(s, ReadData(e), ReadTime(e));
  }

  /** A reading under another serial is not believed. */
  lemma SwappedIsUnread(s: Slot, data: Frame, now: int)
    ensures AnotherSerial(s, data) ==> !ReadsOn(s, data, now) && !ReadsOff(s, data, now)
  {}

  lemma FieldsOfTag(s: Slot, e: Event, i: Index, parked: bool)
    requires e.TagEvent? && e.slot == i
    ensures SlotFields(s, e, i, false, Demands(s, e, i, false, parked), false, false, Retagged(s, e.uid, parked))
  {
    hide SlotFields, Retagged, Demands;
    if s.uid == e.uid {
      FieldsOfSameTag(s, e, i, parked);
    } else {
      FieldsOfNewTag(s, e, i, parked);
    }
  }

  lemma FieldsOfSameTag(s: Slot, e: Event, i: Index, parked: bool)
    requires e.TagEvent? && e.slot == i && e.uid == s.uid
    ensures SlotFields(s, e, i, false, Demands(s, e, i, false, parked), false, false, Retagged(s, e.uid, parked))
  {
    var t := s.(valid := false, haveFrame := false, written := 0, history := [], absent := false,
                requiresAdmission := s.requiresAdmission || parked);
    SameTagSlot(s, parked);
    hide Retagged;
    assert SlotFields(s, e, i, false, Demands(s, e, i, false, parked), false, false, t);
  }

  lemma SameTagSlot(s: Slot, parked: bool)
    ensures Retagged(s, s.uid, parked)
            == s.(valid := false, haveFrame := false, written := 0, history := [], absent := false,
                  requiresAdmission := s.requiresAdmission || parked)
  {}

  lemma FieldsOfNewTag(s: Slot, e: Event, i: Index, parked: bool)
    requires e.TagEvent? && e.slot == i && e.uid != s.uid
    ensures SlotFields(s, e, i, false, Demands(s, e, i, false, parked), false, false, Retagged(s, e.uid, parked))
  {
    hide MovedAt, Trusted, ReadsOn, ReadsOff, AnotherSerial;
  }

  lemma FieldsOfMiss(s: Slot, e: Event, i: Index, parked: bool)
    requires e.AbsentEvent? && e.slot == i
    ensures SlotFields(s, e, i, false, Demands(s, e, i, false, parked), false, false, Gone(s, e.now, parked))
  {}

  lemma FieldsOfFail(s: Slot, e: Event, i: Index)
    requires e.FailEvent? && e.slot == i
    ensures SlotFields(s, e, i, false, false, false, false, Failed(s))
  {}

  lemma FieldsOfSeatbox(s: Slot, e: Event, i: Index)
    requires e.SetSeatboxEvent?
    ensures SlotFields(s, e, i, true, Demands(s, e, i, true, false), false, false, SeatboxInvalid(s))
  {}

  lemma FieldsOfOff(s: Slot, e: Event, i: Index)
    requires e.OffEvent? || e.CorrectiveOffEvent?
    ensures SlotFields(s, e, i, false, false, s.held && (s.offPending ==> s.offAt < s.lastOnAt), false,
                       Commanded(s, e.now))
  {
    hide SlotFields, Commanded;
    CommandedSlot(s, e.now);
    FieldsUnchanged(s, e, i);
    FieldsOfRecord(s, e, i);
  }

  lemma CommandedSlot(s: Slot, now: int)
    ensures Commanded(s, now)
            == if s.held && (s.offPending ==> s.offAt < s.lastOnAt) then s.(offPending := true, offAt := now) else s
  {}

  lemma FieldsOfRecord(s: Slot, e: Event, i: Index)
    requires e.OffEvent? || e.CorrectiveOffEvent?
    ensures SlotFields(s, e, i, false, false, true, false, s.(offPending := true, offAt := e.now))
  {}

  lemma FieldsOfAnswer(s: Slot, e: Event, i: Index, reason: Reason)
    requires e.RequestOnEvent? && (reason.Granted() ==> (reason.Admitted? <==> !s.held))
    ensures SlotFields(s, e, i, false, false, false, reason.Granted(), Switched(s, e.now, reason))
  {
    hide SlotFields, Switched;
    SwitchedSlot(s, e.now, reason);
    FieldsUnchanged(s, e, i);
    FieldsOfGrant(s, e, i);
  }

  lemma SwitchedSlot(s: Slot, now: int, reason: Reason)
    requires reason.Granted() ==> (reason.Admitted? <==> !s.held)
    ensures !reason.Granted() ==> Switched(s, now, reason) == s
    ensures reason.Granted() ==> Switched(s, now, reason) == GrantedSlot(s, now)
  {}

  function GrantedSlot(s: Slot, now: int): Slot {
    s.(held := true, onAt := if s.held then s.onAt else now, lastOnAt := now, requiresAdmission := false)
  }

  lemma FieldsOfGrant(s: Slot, e: Event, i: Index)
    requires e.RequestOnEvent?
    ensures SlotFields(s, e, i, false, false, false, true, GrantedSlot(s, e.now))
  {}

  lemma FieldsOfRole(s: Slot, e: Event, i: Index)
    requires e.SetRoleEvent? && e.slot == i
    ensures SlotFields(s, e, i, false, false, false, false,
                       s.(eligible := e.eligible, powerTracked := s.powerTracked || e.eligible))
  {}

  lemma FieldsUnchanged(s: Slot, e: Event, i: Index)
    requires !Reads(e, i) && !Concerns(e, i) && !(e.SetRoleEvent? && e.slot == i)
    ensures SlotFields(s, e, i, false, false, false, false, s)
  {}

  /** A granted slot that was not held is admitted, and every other grant leaves it held. */
  lemma GrantReserves(st: State, i: Index, now: int, maxDelta: nat, jumped: bool)
    requires Verdict(st, i, now, maxDelta, jumped).Granted()
    ensures Verdict(st, i, now, maxDelta, jumped).Admitted? <==> !st.slots.At(i).held
  {
    hide Decide, Selected, Dropped, Qualified, KeepsHandover;
    var c := Reconcile(st, now, maxDelta);
    GrantKinds(c, i, now, maxDelta, jumped);
    KeptSupplies(c, i, now);
  }

  lemma KeptSupplies(st: State, i: Index, now: int)
    ensures KeepsHandover(st, i, now) ==> st.slots.At(i).held && st.slots.At(i).active
  {}

  lemma Quiet(st: State, e: Event, i: Index)
    ensures SeatboxTurns(st, e) == SeatboxMoves(st, e)
    ensures !e.SetSeatboxEvent? ==> !SeatboxTurns(st, e)
    ensures !CommandsOff(st, e, i) ==> !RecordsOff(st, e, i)
    ensures !(e.RequestOnEvent? && e.slot == i) ==> !Grants(st, e, i)
    ensures !(e.OffEvent? || e.CorrectiveOffEvent?) ==> !CommandsOff(st, e, i)
  {
    hide CorrectiveOff, Verdict;
  }

  lemma DemandCases(s: Slot, e: Event, i: Index, turns: bool, parked: bool)
    ensures !turns && !Reads(e, i) && !Concerns(e, i) ==> !Demands(s, e, i, turns, parked)
    ensures e.FailEvent? && !turns ==> !Demands(s, e, i, turns, parked)
    ensures !turns && Reads(e, i) ==> Demands(s, e, i, turns, parked) == AnotherSerial(s, ReadData(e))
    ensures turns && e.SetSeatboxEvent? ==> Demands(s, e, i, turns, parked) == Demands(s, e, i, turns, false)
  {
    hide AnotherSerial;
  }

  lemma FieldsOfEffect(st: State, e: Event, i: Index)
    ensures AllFields(st, e, i, SlotEffect(st, e, i))
  {
    hide SlotFields, Settled, Retagged, Gone, Failed, SeatboxInvalid, Commanded, Switched, Verdict, NonDriving,
         MayDrive, CorrectiveOff, Demands, AnotherSerial, SeatboxTurns, SeatboxMoves;
    var s, parked := st.slots.At(i), !MayDrive(st.vehicle);
    NonDrivingExactly(st.vehicle);
    Quiet(st, e, i);
    DemandCases(s, e, i, SeatboxTurns(st, e), parked);
    match e
    case ObserveEvent(j, _, _) => if j == i { FieldsOfReading(s, e, i); } else { FieldsUnchanged(s, e, i); }
    case AcquireEvent(j, _, _) => if j == i { FieldsOfReading(s, e, i); } else { FieldsUnchanged(s, e, i); }
    case TagEvent(j, _) => if j == i { FieldsOfTag(s, e, i, parked); } else { FieldsUnchanged(s, e, i); }
    case AbsentEvent(j, _) => if j == i { FieldsOfMiss(s, e, i, parked); } else { FieldsUnchanged(s, e, i); }
    case FailEvent(j) => if j == i { FieldsOfFail(s, e, i); } else { FieldsUnchanged(s, e, i); }
    case SetRoleEvent(j, _) => if j == i { FieldsOfRole(s, e, i); } else { FieldsUnchanged(s, e, i); }
    case SetSeatboxEvent(_) => FieldsOfSeatbox(s, e, i); FieldsUnchanged(s, e, i);
    case RequestOnEvent(j, _, _, _) =>
      FieldsUnchanged(s, e, i);
      if j == i {
        FieldsOfRequest(st, e, i);
      }
    case OffEvent(_, _) => FieldsOfOff(s, e, i); FieldsUnchanged(s, e, i);
    case CorrectiveOffEvent(_, _) => FieldsOfOff(s, e, i); FieldsUnchanged(s, e, i);
    case _ => FieldsUnchanged(s, e, i);
  }

  lemma FieldsOfRequest(st: State, e: Event, i: Index)
    requires e.RequestOnEvent? && e.slot == i
    ensures var r := Verdict(st, i, e.now, e.maxDelta, e.jumped);
            SlotFields(st.slots.At(i), e, i, false, false, false, r.Granted(), Switched(st.slots.At(i), e.now, r))
  {
    hide Verdict, SlotFields, Switched;
    var r := Verdict(st, i, e.now, e.maxDelta, e.jumped);
    if r.Granted() {
      GrantReserves(st, i, e.now, e.maxDelta, e.jumped);
    }
    FieldsOfAnswer(st.slots.At(i), e, i, r);
  }

  lemma FieldsAlike(
    s: Slot, e: Event, i: Index, turns: bool, demands: bool, records: bool, granted: bool, t: Slot, u: Slot)
    requires SlotFields(s, e, i, turns, demands, records, granted, u) && Alike(t, u)
    ensures SlotFields(s, e, i, turns, demands, records, granted, t)
  {
    hide Alike, EvidenceFields, RoleFields, PowerFields;
    EvidenceAlike(s, e, i, turns, t, u);
    RoleAlike(s, e, i, demands, granted, t, u);
    PowerAlike(s, e, i, records, granted, t, u);
  }

  lemma EvidenceAlike(s: Slot, e: Event, i: Index, turns: bool, t: Slot, u: Slot)
    requires EvidenceFields(s, e, i, turns, u) && Alike(t, u)
    ensures EvidenceFields(s, e, i, turns, t)
  {
    hide Alike, MovedAt, Trusted, NewTag, Concerns;
    SameFields(t, u);
  }

  lemma RoleAlike(s: Slot, e: Event, i: Index, demands: bool, granted: bool, t: Slot, u: Slot)
    requires RoleFields(s, e, i, demands, granted, u) && Alike(t, u)
    ensures RoleFields(s, e, i, demands, granted, t)
  {
    hide Alike;
    SameFields(t, u);
  }

  lemma PowerAlike(s: Slot, e: Event, i: Index, records: bool, granted: bool, t: Slot, u: Slot)
    requires PowerFields(s, e, i, records, granted, u) && Alike(t, u)
    ensures PowerFields(s, e, i, records, granted, t)
  {
    hide Alike, ReadsOn, ReadsOff, NewTag, AnotherSerial;
    SameFields(t, u);
  }

  lemma SameFields(t: Slot, u: Slot)
    requires Alike(t, u)
    ensures t.uid == u.uid && t.serial == u.serial && t.frame == u.frame && t.haveFrame == u.haveFrame
    ensures t.observed == u.observed && t.observedRound == u.observedRound && t.written == u.written
    ensures t.valid == u.valid && t.absent == u.absent
    ensures t.monitored == u.monitored && t.eligible == u.eligible && t.powerTracked == u.powerTracked
    ensures t.requiresAdmission == u.requiresAdmission && t.held == u.held && t.active == u.active
    ensures t.offPending == u.offPending && t.offAt == u.offAt && t.onAt == u.onAt && t.lastOnAt == u.lastOnAt
    ensures t.identityUncertain == u.identityUncertain
  {}

  /** Every field of a slot after a step is what the event and the old fields say. */
  lemma FieldStep(st: State, e: Event, i: Index)
    ensures AllFields(st, e, i, Step(st, e).slots.At(i))
  {
    hide Step, SlotFields, SlotEffect, Alike, RecordsOff, Grants, DemandsAdmission, SeatboxTurns;
    SlotStep(st, e, i);
    FieldsOfEffect(st, e, i);
    FieldsAlike(st.slots.At(i), e, i, SeatboxTurns(st, e), DemandsAdmission(st, e, i), RecordsOff(st, e, i),
                Grants(st, e, i), Step(st, e).slots.At(i), SlotEffect(st, e, i));
  }
}

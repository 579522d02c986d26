/** The decisions told from the fields: when a request is granted and why it is denied, when an
    episode is created, ended and acted on. Each is an equivalence. */
module Decided {
  import opened Domain
  import opened Protocol
  import opened Fields

  // ----- Slots -----

  predicate Healthy(f: Frame) {
    f.faultCode == 0 && (f.lowSoc ==> f.charge > 0)
  }

  /** Believed, and read within the last ten seconds. */
  predicate Recent(s: Slot, now: int) {
    s.valid && now <= s.observed + 10 * SECOND
  }

  predicate ReportedGone(s: Slot, now: int) {
    s.absent && now <= s.observed + 10 * SECOND
  }

  predicate Near(a: int, b: int, limit: int) {
    -limit <= a - b <= limit
  }

  predicate Supplying(s: Slot) {
    s.held && s.active && s.frame.state == Active
  }

  predicate Resting(s: Slot) {
    s.frame.state in {Idle, Asleep}
  }

  /** Three samples over six seconds, at most one ampere and within 100 mV of each other and of the frame. */
  predicate Calm(s: Slot, now: int) {
    var h := s.history;
    && Recent(s, now) && |h| >= 3 && h[|h| - 1].at >= h[0].at + 6 * SECOND
    && (forall k | 0 <= k < |h| :: Near(h[k].data.current, 0, 1000) && Near(h[k].data.voltage, s.frame.voltage, 100))
    && (forall j, k | 0 <= j < |h| && 0 <= k < |h| :: Near(h[j].data.voltage, h[k].data.voltage, 100))
  }

  lemma UsableExactly(s: Slot)
    ensures s.Depleted() <==> !Healthy(s.frame)
    ensures s.Usable() <==> s.eligible && Healthy(s.frame)
  {}

  lemma RecentExactly(s: Slot, now: int)
    ensures s.Fresh(now) <==> Recent(s, now)
    ensures s.KnownAbsent(now) <==> ReportedGone(s, now)
  {}

  lemma NearExactly(a: nat, b: nat, limit: nat)
    ensures Distance(a, b) <= limit <==> Near(a, b, limit)
  {}

  lemma CalmExactly(s: Slot, now: int)
    ensures s.Stable(now) <==> Calm(s, now)
  {
    var h := s.history;
    if s.Stable(now) {
      forall k | 0 <= k < |h|
        ensures Near(h[k].data.voltage, s.frame.voltage, 100)
      {
        assert s.WindowVoltage(k) == h[k].data.voltage && s.WindowVoltage(|h|) == s.frame.voltage;
      }
      forall j, k | 0 <= j < |h| && 0 <= k < |h|
        ensures Near(h[j].data.voltage, h[k].data.voltage, 100)
      {
        assert s.WindowVoltage(j) == h[j].data.voltage && s.WindowVoltage(k) == h[k].data.voltage;
      }
    }
  }

  // ----- Both slots -----

  /** Both frames are at most three seconds apart and, with sampling on, one pair of the last ten seconds. */
  predicate SamePair(st: State, now: int) {
    && Near(st.slots.first.observed, st.slots.second.observed, 3 * SECOND)
    && (st.sampling.enabled ==> PairedBoth(st, now))
  }

  predicate PairedBoth(st: State, now: int) {
    && st.sampling.pairedAt != 0 && now <= st.sampling.pairedAt + 10 * SECOND
    && st.slots.first.observedRound == st.sampling.pairedId
    && st.slots.second.observedRound == st.sampling.pairedId
  }

  lemma SamePairExactly(st: State, now: int)
    ensures PairCurrent(st, now) <==> SamePair(st, now)
    ensures Paired(st, now) <==> PairedBoth(st, now)
    ensures Aligned(st) <==> Near(st.slots.first.observed, st.slots.second.observed, 3 * SECOND)
  {}

  // ----- Episodes -----

  /** Both slots are recently read, none has OFF pending, and the pair differs by more than the limit. */
  predicate Apart(st: State, now: int, limit: nat) {
    var a, b := st.slots.first, st.slots.second;
    && st.coordinated && limit > 0 && !MayDrive(st.vehicle) && SamePair(st, now)
    && Recent(a, now) && Recent(b, now) && !a.offPending && !b.offPending
    && !Near(a.frame.voltage, b.frame.voltage, limit)
  }

  /** Keep the higher voltage, or the other when that battery cannot be used. */
  predicate Preferred(keep: Slot, drop: Slot) {
    && keep.eligible && Healthy(keep.frame)
    && (keep.frame.voltage > drop.frame.voltage || !drop.eligible || !Healthy(drop.frame))
  }

  /** Both batteries supply power, and the one to keep is admitted. */
  predicate BothSupply(keep: Slot, drop: Slot) {
    Supplying(drop) && Supplying(keep) && !keep.requiresAdmission
  }

  /** One battery supplies power and the better one rests, both calmly. */
  predicate OneSupplies(keep: Slot, drop: Slot, now: int) {
    Supplying(drop) && !keep.held && Resting(keep) && Calm(keep, now) && Calm(drop, now)
  }

  /** The episode that a review creates. */
  predicate Calls(st: State, now: int, limit: nat, e: Episode) {
    var keep, drop := st.slots.At(e.survivor), st.slots.At(1 - e.survivor);
    && Apart(st, now, limit) && Preferred(keep, drop)
    && e == Episode(e.survivor, 1 - e.survivor, false, e.handover, false)
    && (if e.handover then st.conservative && OneSupplies(keep, drop, now) else BothSupply(keep, drop))
  }

  lemma ApartExactly(st: State, now: int, limit: nat)
    ensures Mismatched(st, now, limit) <==> Apart(st, now, limit)
  {
    NonDrivingExactly(st.vehicle);
    SamePairExactly(st, now);
    RecentExactly(st.slots.first, now);
    RecentExactly(st.slots.second, now);
    NearExactly(st.slots.first.frame.voltage, st.slots.second.frame.voltage, limit);
    hide NonDriving, MayDrive, PairCurrent, SamePair, Recent, Slot.Fresh, Distance, Near;
  }

  lemma SurvivorExactly(st: State, limit: nat, i: Index)
    requires !Near(st.slots.first.frame.voltage, st.slots.second.frame.voltage, limit)
    ensures (Survivor(st) == i && st.slots.At(i).Usable()) <==> Preferred(st.slots.At(i), st.slots.At(1 - i))
  {
    UsableExactly(st.slots.first);
    UsableExactly(st.slots.second);
    hide Slot.Usable, Healthy;
    if i == 0 {} else {}
  }

  /** A review without an episode creates exactly the one called for: the kept battery is usable and
      has the higher voltage unless the other cannot be used. */
  lemma CreatedExactly(st: State, now: int, limit: nat, e: Episode)
    ensures Selected(st, now, limit) == Some(e) <==> Calls(st, now, limit, e)
  {
    ApartExactly(st, now, limit);
    if Apart(st, now, limit) {
      SurvivorExactly(st, limit, e.survivor);
      CalmExactly(st.slots.At(e.survivor), now);
      CalmExactly(st.slots.At(1 - e.survivor), now);
      SelectedBy(st, now, limit, e);
    }
  }

  lemma SelectedBy(st: State, now: int, limit: nat, e: Episode)
    requires Mismatched(st, now, limit) && Apart(st, now, limit)
    requires var keep, drop := st.slots.At(e.survivor), st.slots.At(1 - e.survivor);
             && ((Survivor(st) == e.survivor && keep.Usable()) <==> Preferred(keep, drop))
             && (keep.Stable(now) <==> Calm(keep, now)) && (drop.Stable(now) <==> Calm(drop, now))
    ensures Selected(st, now, limit) == Some(e) <==> Calls(st, now, limit, e)
  {
    hide Mismatched, Apart, Survivor, Preferred, Calm, Slot.Stable, Slot.Usable;
  }

  /** A handover no longer pays: the pair shows its target unusable, not higher, or within the limit. */
  predicate Pointless(st: State, e: Episode, now: int, limit: nat) {
    var keep, drop := st.slots.At(e.survivor), st.slots.At(e.victim);
    && SamePair(st, now) && Recent(st.slots.first, now) && Recent(st.slots.second, now)
    && (|| !keep.eligible || !Healthy(keep.frame) || limit == 0
        || keep.frame.voltage <= drop.frame.voltage + limit)
  }

  /** A confirmed handover whose target cannot take over, or is the worse of two idle batteries. */
  predicate Stranded(st: State, e: Episode, now: int) {
    var keep, drop := st.slots.At(e.survivor), st.slots.At(e.victim);
    && !keep.held && !drop.held
    && (|| ReportedGone(keep, now) || !keep.eligible || !Healthy(keep.frame)
        || (drop.eligible && Healthy(drop.frame) && drop.frame.voltage > keep.frame.voltage))
  }

  /** A review ends an episode exactly when it was not attempted and the limit is gone or the handover
      pointless, or when its confirmed handover is stranded. */
  lemma EndedExactly(st: State, e: Episode, now: int, limit: nat)
    ensures Dropped(st, e, now, limit) <==>
              || (!e.attempted && (limit == 0 || (e.handover && Pointless(st, e, now, limit))))
              || (e.handover && e.offConfirmed && Stranded(st, e, now))
  {
    var keep, drop := st.slots.At(e.survivor), st.slots.At(e.victim);
    SamePairExactly(st, now);
    RecentExactly(st.slots.first, now);
    RecentExactly(st.slots.second, now);
    RecentExactly(keep, now);
    UsableExactly(keep);
    UsableExactly(drop);
    NearExactly(keep.frame.voltage, drop.frame.voltage, limit);
    hide PairCurrent, SamePair, Recent, ReportedGone, Healthy, Slot.Fresh, Slot.Usable, Slot.KnownAbsent;
  }

  // ----- OFF -----

  /** The survivor's evidence still justifies switching the victim off. */
  predicate Justified(st: State, e: Episode, now: int) {
    var keep, drop := st.slots.At(e.survivor), st.slots.At(e.victim);
    && !MayDrive(st.vehicle) && Recent(keep, now) && keep.eligible && Healthy(keep.frame) && !keep.offPending
    && (if e.handover then
          && !e.offConfirmed && !keep.held && Resting(keep)
          && (e.attempted || (SamePair(st, now) && Calm(keep, now) && Calm(drop, now)))
        else
          Supplying(keep) && !keep.requiresAdmission)
  }

  /** An attempted handover pauses while its victim, read ACTIVE at least 400 ms after OFF, is the only
      supply of a vehicle that is ready to drive. */
  predicate Paused(st: State, i: Index, now: int) {
    && st.isolation.Some?
    && var e := st.isolation.value;
    var drop, keep := st.slots.At(e.victim), st.slots.At(e.survivor);
    && e.handover && e.attempted && !e.offConfirmed && e.victim == i && st.vehicle == ReadyToDrive
    && Supplying(drop) && !drop.requiresAdmission && Recent(drop, now)
    && drop.offAt < drop.observed && drop.offAt + 400 * MILLISECOND <= now
    && !keep.held && !keep.offPending && (ReportedGone(keep, now) || (Recent(keep, now) && Resting(keep)))
  }

  lemma JustifiedExactly(st: State, now: int)
    ensures IsolationReady(st, now) <==> st.isolation.Some? && Justified(st, st.isolation.value, now)
  {
    if st.isolation.Some? {
      var e := st.isolation.value;
      var keep, drop := st.slots.At(e.survivor), st.slots.At(e.victim);
      NonDrivingExactly(st.vehicle);
      SamePairExactly(st, now);
      RecentExactly(keep, now);
      UsableExactly(keep);
      CalmExactly(keep, now);
      CalmExactly(drop, now);
      hide NonDriving, MayDrive, PairCurrent, SamePair, Recent, Slot.Fresh, Slot.Usable, Healthy, Calm, Slot.Stable;
    }
  }

  lemma PausedExactly(st: State, i: Index, now: int)
    ensures KeepsHandover(st, i, now) <==> Paused(st, i, now)
  {
    if st.isolation.Some? {
      RecentExactly(st.slots.At(st.isolation.value.victim), now);
      RecentExactly(st.slots.At(st.isolation.value.survivor), now);
      hide Recent, ReportedGone, Slot.Fresh, Slot.KnownAbsent;
    }
  }

  /** The reconciled state orders slot `i` off exactly when it is the victim of an episode whose OFF is
      not confirmed, that is attempted or justified, and not paused. */
  lemma OrderedExactly(st: State, i: Index, now: int)
    ensures OrdersOff(st, i, now) <==>
              && st.isolation.Some? && st.isolation.value.victim == i && !st.isolation.value.offConfirmed
              && (st.isolation.value.attempted || Justified(st, st.isolation.value, now)) && !Paused(st, i, now)
  {
    JustifiedExactly(st, now);
    PausedExactly(st, i, now);
    hide IsolationReady, KeepsHandover, Justified, Paused;
  }

  // ----- ON -----

  /** A fresh report says that the vehicle moves. */
  predicate Moving(m: Motion, now: int) {
    m.at != 0 && m.at <= now <= m.at + 500 * MILLISECOND && !m.stopped
  }

  /** Every two voltages of the windows are within the limit less its tenth, or less 100 mV. */
  predicate Tight(a: seq<Sample>, b: seq<Sample>, limit: nat) {
    forall j, k | 0 <= j < |a| && 0 <= k < |b| ::
      Near(a[j].data.voltage, b[k].data.voltage, limit - Min(100, limit / 10))
  }

  /** What joining the held peer takes. */
  predicate Joins(st: State, i: Index, now: int, limit: nat) {
    var s, peer := st.slots.At(i), st.slots.At(1 - i);
    && !Moving(st.motion, now) && peer.active && !peer.offPending && Healthy(peer.frame)
    && SamePair(st, now) && (limit > 0 ==> Near(s.frame.voltage, peer.frame.voltage, limit))
    && (st.conservative ==> Calm(s, now) && Calm(peer, now) && (limit > 0 ==> Tight(s.history, peer.history, limit)))
  }

  /** The peer is not the one to start first. */
  predicate Leads(st: State, i: Index) {
    var s, peer := st.slots.At(i).frame, st.slots.At(1 - i).frame;
    if st.conservative then
      || s.voltage > peer.voltage
      || (s.voltage == peer.voltage && (s.charge > peer.charge || (s.charge == peer.charge && i == 0)))
    else i == 0
  }

  /** The peer allows it: it is known to be no supply, gone, second in line, or joined properly. */
  predicate PeerAllows(st: State, i: Index, now: int, limit: nat) {
    var peer := st.slots.At(1 - i);
    peer.monitored && (peer.powerTracked || peer.held || peer.offPending) ==>
      && (ReportedGone(peer, now) || Recent(peer, now))
      && (if peer.held then Joins(st, i, now, limit)
          else ReportedGone(peer, now) || !peer.eligible || !Healthy(peer.frame) || Leads(st, i))
  }

  /** What qualification takes. */
  predicate Qualifies(st: State, i: Index, now: int, limit: nat) {
    var s, peer := st.slots.At(i), st.slots.At(1 - i);
    && !st.sampling.stopped
    && (!MayDrive(st.vehicle) || (st.vehicle == ReadyToDrive && !peer.held && !peer.offPending))
    && (s.held && !s.active ==> now <= s.onAt + 10 * SECOND)
    && Recent(s, now) && Healthy(s.frame) && PeerAllows(st, i, now, limit)
  }

  /** The episode holds slot `i` back: as its victim, or as a target that waits. */
  predicate HeldBack(st: State, i: Index, now: int) {
    && st.isolation.Some?
    && var e, s := st.isolation.value, st.slots.At(i);
    || (e.victim == i && (e.attempted || !Supplies(s) || Justified(st, e, now)))
    || (e.survivor == i && e.handover && !e.offConfirmed)
  }

  predicate Supplies(s: Slot) {
    s.held && s.active
  }

  /** The reconciled state grants slot `i`. */
  predicate Permits(st: State, i: Index, now: int, limit: nat) {
    var s := st.slots.At(i);
    && s.eligible
    && if s.offPending then Paused(st, i, now)
       else
         && !HeldBack(st, i, now) && !(s.identityUncertain && s.held && !s.active)
         && ((Supplies(s) && !s.requiresAdmission) || Qualifies(st, i, now, limit))
  }

  lemma TightExactly(a: seq<Sample>, b: seq<Sample>, limit: nat)
    ensures WindowsAgree(a, b, StrictLimit(limit)) <==> Tight(a, b, limit)
  {
    hide Distance, Near;
    forall j, k | 0 <= j < |a| && 0 <= k < |b|
      ensures Distance(a[j].data.voltage, b[k].data.voltage) <= StrictLimit(limit) <==>
              Near(a[j].data.voltage, b[k].data.voltage, limit - Min(100, limit / 10))
    {
      NearExactly(a[j].data.voltage, b[k].data.voltage, StrictLimit(limit));
    }
  }

  lemma StationaryExactly(st: State, now: int, jumped: bool)
    requires !MayDrive(st.vehicle)
    ensures SecondPackStationary(st, now, jumped) <==> !Moving(st.motion, now)
  {
    hide StoppedPairReady;
  }

  lemma JoinsExactly(st: State, i: Index, now: int, limit: nat, jumped: bool)
    requires !MayDrive(st.vehicle)
    ensures JoinObjection(st, i, now, limit, jumped).None? <==> Joins(st, i, now, limit)
  {
    var s, peer := st.slots.At(i), st.slots.At(1 - i);
    NonDrivingExactly(st.vehicle);
    StationaryExactly(st, now, jumped);
    SamePairExactly(st, now);
    UsableExactly(peer);
    NearExactly(st.slots.first.frame.voltage, st.slots.second.frame.voltage, limit);
    CalmExactly(s, now);
    CalmExactly(peer, now);
    TightExactly(s.history, peer.history, limit);
    JoinsWhole(st, i, now, limit, jumped);
  }

  lemma JoinsWhole(st: State, i: Index, now: int, limit: nat, jumped: bool)
    requires NonDriving(st.vehicle)
    requires SecondPackStationary(st, now, jumped) <==> !Moving(st.motion, now)
    requires Paired(st, now) <==> PairedBoth(st, now)
    requires Aligned(st) <==> Near(st.slots.first.observed, st.slots.second.observed, 3 * SECOND)
    requires st.slots.At(1 - i).Depleted() <==> !Healthy(st.slots.At(1 - i).frame)
    requires Gap(st) <= limit <==> Near(st.slots.first.frame.voltage, st.slots.second.frame.voltage, limit)
    requires var s, peer := st.slots.At(i), st.slots.At(1 - i);
             && (s.Stable(now) <==> Calm(s, now)) && (peer.Stable(now) <==> Calm(peer, now))
             && (WindowsAgree(s.history, peer.history, StrictLimit(limit)) <==> Tight(s.history, peer.history, limit))
    ensures JoinObjection(st, i, now, limit, jumped).None? <==> Joins(st, i, now, limit)
  {
    hide NonDriving, SecondPackStationary, Moving, Paired, PairedBoth, Aligned, Slot.Depleted, Healthy, Distance,
         Slot.Stable, Calm, WindowsAgree, StrictLimit, Tight;
    if i == 0 {} else {}
  }

  lemma LeadsExactly(st: State, i: Index)
    ensures SelectionObjection(st, i).None? <==> Leads(st, i)
  {}

  lemma PeerAllowsExactly(st: State, i: Index, now: int, limit: nat, jumped: bool)
    requires !MayDrive(st.vehicle) || !st.slots.At(1 - i).held
    ensures PeerObjection(st, i, now, limit, jumped).None? <==> PeerAllows(st, i, now, limit)
  {
    var peer := st.slots.At(1 - i);
    RecentExactly(peer, now);
    UsableExactly(peer);
    LeadsExactly(st, i);
    if !MayDrive(st.vehicle) {
      JoinsExactly(st, i, now, limit, jumped);
    }
    hide JoinObjection, Joins, SelectionObjection, Leads, Recent, ReportedGone, Healthy, Slot.Fresh, Slot.KnownAbsent,
         Slot.Usable, MayDrive;
  }

  lemma QualifiesExactly(st: State, i: Index, now: int, limit: nat, jumped: bool)
    requires st.slots.At(i).eligible
    ensures Qualify(st, i, now, limit, jumped).Granted() <==> Qualifies(st, i, now, limit)
  {
    var s, peer := st.slots.At(i), st.slots.At(1 - i);
    NonDrivingExactly(st.vehicle);
    RecentExactly(s, now);
    UsableExactly(s);
    if !MayDrive(st.vehicle) || !peer.held {
      PeerAllowsExactly(st, i, now, limit, jumped);
    }
    hide NonDriving, PeerObjection, PeerAllows, Recent, Healthy, Slot.Fresh, Slot.Usable;
  }

  /** A request is granted on the reconciled state exactly when the fields permit it. */
  lemma GrantedExactly(st: State, i: Index, now: int, limit: nat, jumped: bool)
    ensures Decide(st, i, now, limit, jumped).Granted() <==> Permits(st, i, now, limit)
  {
    PausedExactly(st, i, now);
    JustifiedExactly(st, now);
    if st.slots.At(i).eligible {
      QualifiesExactly(st, i, now, limit, jumped);
    }
    hide KeepsHandover, Paused, IsolationReady, Justified, Qualify, Qualifies;
  }

  // ----- Reasons -----

  /** What a reason says about the reconciled state. */
  predicate Explains(reason: Reason, st: State, i: Index, now: int, limit: nat) {
    var s, peer := st.slots.At(i), st.slots.At(1 - i);
    match reason
    case InactiveRole => !s.eligible
    case WaitingForOff => s.offPending && !Paused(st, i, now)
    case IsolatingPack => st.isolation.Some? && st.isolation.value.victim == i && HeldBack(st, i, now)
    case WaitingForHandover => st.isolation.Some? && st.isolation.value.survivor == i && HeldBack(st, i, now)
    case WaitingForTagPower => s.identityUncertain && s.held && !s.active
    case ServiceStopping => st.sampling.stopped
    case WaitingForNonDrive => MayDrive(st.vehicle) && (st.vehicle != ReadyToDrive || peer.held || peer.offPending)
    case WaitingForOn => s.held && !s.active && s.onAt + 10 * SECOND < now
    case WaitingForData => !Recent(s, now)
    case PackUnusable => !Healthy(s.frame)
    case WaitingForPeerData => !Recent(peer, now) && !ReportedGone(peer, now)
    case WaitingForStationary => peer.held && !MayDrive(st.vehicle) && Moving(st.motion, now)
    case WaitingForQualifiedPeer => false
    case WaitingForPeerPower => peer.held && (!peer.active || peer.offPending)
    case PeerUnusable => peer.held && !Healthy(peer.frame)
    case WaitingForPair => peer.held && st.sampling.enabled && !PairedBoth(st, now)
    case WaitingForAlignment => peer.held && !Near(st.slots.first.observed, st.slots.second.observed, 3 * SECOND)
    case VoltageTooFar =>
      && peer.held && limit > 0
      && (|| !Near(s.frame.voltage, peer.frame.voltage, limit)
          || (st.conservative && !Tight(s.history, peer.history, limit)))
    case WaitingForStability => peer.held && st.conservative && !(Calm(s, now) && Calm(peer, now))
    case PrimarySelected => !peer.held && !st.conservative && i == 1
    case HigherVoltageSelected => !peer.held && st.conservative && !Leads(st, i)
    case MaintainingHandover => s.offPending && Paused(st, i, now)
    case MaintainingSupply => Supplies(s) && !s.requiresAdmission
    case Requalified => s.held && s.requiresAdmission && Qualifies(st, i, now, limit)
    case AwaitingOn => s.held && !s.active && !s.requiresAdmission && Qualifies(st, i, now, limit)
    case Admitted => !s.held && Qualifies(st, i, now, limit)
  }

  lemma JoinExplained(st: State, i: Index, now: int, limit: nat, jumped: bool)
    requires !MayDrive(st.vehicle) && st.slots.At(1 - i).held && JoinObjection(st, i, now, limit, jumped).Some?
    ensures Explains(JoinObjection(st, i, now, limit, jumped).value, st, i, now, limit)
  {
    var s, peer := st.slots.At(i), st.slots.At(1 - i);
    NonDrivingExactly(st.vehicle);
    StationaryExactly(st, now, jumped);
    SamePairExactly(st, now);
    UsableExactly(peer);
    NearExactly(st.slots.first.frame.voltage, st.slots.second.frame.voltage, limit);
    CalmExactly(s, now);
    CalmExactly(peer, now);
    TightExactly(s.history, peer.history, limit);
    JoinWhy(st, i, now, limit, jumped);
  }

  lemma JoinWhy(st: State, i: Index, now: int, limit: nat, jumped: bool)
    requires NonDriving(st.vehicle) && !MayDrive(st.vehicle)
    requires st.slots.At(1 - i).held && JoinObjection(st, i, now, limit, jumped).Some?
    requires SecondPackStationary(st, now, jumped) <==> !Moving(st.motion, now)
    requires Paired(st, now) <==> PairedBoth(st, now)
    requires Aligned(st) <==> Near(st.slots.first.observed, st.slots.second.observed, 3 * SECOND)
    requires st.slots.At(1 - i).Depleted() <==> !Healthy(st.slots.At(1 - i).frame)
    requires Gap(st) <= limit <==> Near(st.slots.first.frame.voltage, st.slots.second.frame.voltage, limit)
    requires var s, peer := st.slots.At(i), st.slots.At(1 - i);
             && (s.Stable(now) <==> Calm(s, now)) && (peer.Stable(now) <==> Calm(peer, now))
             && (WindowsAgree(s.history, peer.history, StrictLimit(limit)) <==> Tight(s.history, peer.history, limit))
    ensures Explains(JoinObjection(st, i, now, limit, jumped).value, st, i, now, limit)
  {
    NearEitherWay(st, i, limit);
    hide NonDriving, MayDrive, SecondPackStationary, Moving, Paired, PairedBoth, Aligned, Slot.Depleted, Healthy,
         Distance, Slot.Stable, Calm, WindowsAgree, StrictLimit, Tight, Near;
  }

  lemma NearEitherWay(st: State, i: Index, limit: nat)
    ensures Near(st.slots.At(i).frame.voltage, st.slots.At(1 - i).frame.voltage, limit)
            == Near(st.slots.first.frame.voltage, st.slots.second.frame.voltage, limit)
  {
    if i == 0 {} else {}
  }

  lemma PeerExplained(st: State, i: Index, now: int, limit: nat, jumped: bool)
    requires !MayDrive(st.vehicle) || !st.slots.At(1 - i).held
    requires PeerObjection(st, i, now, limit, jumped).Some?
    ensures Explains(PeerObjection(st, i, now, limit, jumped).value, st, i, now, limit)
  {
    var peer := st.slots.At(1 - i);
    RecentExactly(peer, now);
    LeadsExactly(st, i);
    if peer.held && JoinObjection(st, i, now, limit, jumped).Some? {
      JoinExplained(st, i, now, limit, jumped);
    }
    hide JoinObjection, Leads, Recent, ReportedGone, Slot.Fresh, Slot.KnownAbsent, Slot.Usable, MayDrive;
  }

  lemma QualifyExplained(st: State, i: Index, now: int, limit: nat, jumped: bool)
    requires var s := st.slots.At(i); s.eligible && !(Supplies(s) && !s.requiresAdmission)
    ensures Explains(Qualify(st, i, now, limit, jumped), st, i, now, limit)
  {
    var s, peer := st.slots.At(i), st.slots.At(1 - i);
    NonDrivingExactly(st.vehicle);
    RecentExactly(s, now);
    UsableExactly(s);
    QualifiesExactly(st, i, now, limit, jumped);
    if (!MayDrive(st.vehicle) || !peer.held) && PeerObjection(st, i, now, limit, jumped).Some? {
      PeerExplained(st, i, now, limit, jumped);
    }
    hide NonDriving, MayDrive, PeerObjection, Qualifies, Recent, Healthy, Slot.Fresh, Slot.Usable;
  }

  /** Every answer gives a reason that is true of the reconciled state. */
  lemma ReasonExplained(st: State, i: Index, now: int, limit: nat, jumped: bool)
    ensures Explains(Decide(st, i, now, limit, jumped), st, i, now, limit)
  {
    PausedExactly(st, i, now);
    JustifiedExactly(st, now);
    var s := st.slots.At(i);
    if s.eligible && !(Supplies(s) && !s.requiresAdmission) {
      QualifyExplained(st, i, now, limit, jumped);
    }
    hide KeepsHandover, Paused, IsolationReady, Justified, Qualify, Qualifies;
  }
}

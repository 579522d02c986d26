/** What a decision to switch on implies, and how decisions relate. */
module Decisions {
  import opened Domain
  import opened Protocol

  /** Everything the qualification path has established when it grants. */
  ghost predicate Qualified(st: State, i: Index, now: int, maxDelta: nat, jumped: bool) {
    var s, peer := st.slots.At(i), st.slots.At(1 - i);
    && s.eligible && !s.offPending && !st.sampling.stopped && s.Fresh(now) && s.Usable()
    && (NonDriving(st.vehicle) || (st.vehicle.ReadyToDrive? && !peer.held && !peer.offPending))
    && (s.held && !s.active ==> now - s.onAt <= ON_SETTLE && !s.identityUncertain)
    && PeerObjection(st, i, now, maxDelta, jumped).None?
  }

  /** A grant is either the keepalive of a paused handover, the keepalive of a
      qualified running supply, or passes the whole qualification path. */
  lemma GrantKinds(st: State, i: Index, now: int, maxDelta: nat, jumped: bool)
    requires Decide(st, i, now, maxDelta, jumped).Granted()
    ensures var r, s := Decide(st, i, now, maxDelta, jumped), st.slots.At(i);
            && s.eligible
            && (s.offPending <==> r.MaintainingHandover?)
            && (r.MaintainingHandover? ==> KeepsHandover(st, i, now))
            && (r.MaintainingSupply? ==> s.held && s.active && !s.requiresAdmission)
            && (!r.Maintenance() ==> Qualified(st, i, now, maxDelta, jumped))
            && (r.Admitted? <==> !s.held && !r.Maintenance())
            && (r.Requalified? ==> s.held && s.requiresAdmission)
            && (r.AwaitingOn? ==> s.held && !s.active && !s.requiresAdmission)
  {
    hide PeerObjection, KeepsHandover, IsolationReady, NonDriving;
  }

  /** An episode blocks both its sides: the target of a handover until OFF is proven,
      and the victim once its OFF was attempted. */
  lemma GrantDuringEpisode(st: State, i: Index, now: int, maxDelta: nat, jumped: bool)
    requires Decide(st, i, now, maxDelta, jumped).Granted() && st.isolation.Some?
    ensures var e := st.isolation.value;
            && (e.handover && e.survivor == i && e.survivor != e.victim ==> e.offConfirmed)
            && (e.victim == i && e.attempted ==> st.slots.At(i).offPending)
  {
    hide PeerObjection, IsolationReady, NonDriving;
  }
}

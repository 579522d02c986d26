/** The liveness side of sampling: when rounds open, who may claim them, which deliveries pair. */
module Rounds {
  import opened Domain
  import opened Protocol
  import opened Runs
  import opened Invariant
  import opened Effects
  import opened Fields
  import opened Reservation
  import opened Pairing
  import D = Decided
  import History

  // ----- Opening and claiming -----

  /** The round in progress is at most ten seconds old. */
  predicate InTime(st: State, now: int) {
    st.sampling.round.Some? && now <= st.sampling.round.value.openedAt + 10 * SECOND
  }

  predicate Wanted(st: State) {
    && st.sampling.enabled && st.coordinated && !st.sampling.stopped
    && st.slots.first.monitored && st.slots.second.monitored
    && (st.slots.first.eligible || st.slots.second.eligible)
  }

  lemma OpensExactly(st: State, now: int)
    ensures Opens(st, now) <==> Wanted(st) && !InTime(st, now)
  {}

  /** Outside sampling, polling is for a parked vehicle with a slot that waits, or awaits OFF. */
  lemma PollExactly(st: State)
    ensures st.sampling.enabled && !st.sampling.stopped ==> (NeedsPoll(st) <==> Wanted(st))
    ensures !st.sampling.enabled ==>
              (NeedsPoll(st) <==>
                 && st.coordinated && !MayDrive(st.vehicle)
                 && exists i: Index ::
                      var s := st.slots.At(i);
                      && s.monitored && s.eligible
                      && (s.offPending || (!s.absent && (s.requiresAdmission || !s.active))))
  {
    NonDrivingExactly(st.vehicle);
    assert st.slots.At(0) == st.slots.first && st.slots.At(1) == st.slots.second;
  }

  /** Coordinated readers are both monitored, in every run. */
  lemma {:induction false} CoordinatedMonitored(run: Run, n: nat)
    requires IsRun(run) && n <= |run.events| && run.states[n].coordinated
    ensures run.states[n].slots.first.monitored && run.states[n].slots.second.monitored
    decreases n
  {
    hide Step, Allowed, Inv, EvidenceFields, PowerFields, Opens, DemandsAdmission, Grants, RecordsOff, ConfiguredAll;
    if n == 0 {
      hide StepAt;
      var readers, conservative, sampling, motion :|
        run.states[0] == Initial(readers, conservative, sampling, motion);
    } else {
      var st, e := run.states[n - 1], run.events[n - 1];
      StepOf(run, n - 1);
      ConfigStep(st, e);
      FieldStep(st, e, 0);
      FieldStep(st, e, 1);
      if st.coordinated {
        CoordinatedMonitored(run, n - 1);
      } else {
        EligibleMonitored(run, n);
      }
    }
  }

  lemma EligibleMonitored(run: Run, n: nat)
    requires IsRun(run) && n <= |run.events|
    ensures run.states[n].slots.first.eligible ==> run.states[n].slots.first.monitored
    ensures run.states[n].slots.second.eligible ==> run.states[n].slots.second.monitored
  {
    hide Inv, Step, Allowed, EpisodeInv, RoundInv, PairInv;
    ReachableInv(run, n);
    InvParts(run.states[n], 0);
    InvParts(run.states[n], 1);
  }

  lemma BeginWhole(st: State, now: int)
    ensures var t := BeginRound(st, now).sampling;
            && (InTime(st, now) ==> t.round == st.sampling.round)
            && (!InTime(st, now) && Wanted(st) ==> t.round == Some(NewRound(st.sampling.next + 1, now)))
            && (!InTime(st, now) && !Wanted(st) ==> t.round == None)
  {}

  lemma BegunInTime(st: State, now: int)
    requires Wanted(st)
    ensures InTime(BeginRound(st, now), now)
  {
    hide Wipe;
    BeginWhole(st, now);
  }

  /** Rounds keep coming: in paired mode, until shutdown, every attempt to begin a round while a slot is
      eligible leaves one in progress that is at most ten seconds old, a new unclaimed one unless the
      last is still in time. */
  lemma RoundsKeepComing(run: Run, n: nat)
    requires IsRun(run) && n < |run.events| && run.events[n].BeginRoundEvent? && PairedMode(run.states[n])
    requires !run.states[n].sampling.stopped
    requires run.states[n].slots.first.eligible || run.states[n].slots.second.eligible
    ensures InTime(run.states[n + 1], run.events[n].now)
    ensures if InTime(run.states[n], run.events[n].now)
            then run.states[n + 1].sampling.round == run.states[n].sampling.round
            else run.states[n + 1].sampling.round.value
                 == NewRound(run.states[n].sampling.next + 1, run.events[n].now)
  {
    hide Allowed, Inv, BeginRound, InTime, NewRound;
    StepOf(run, n);
    CoordinatedMonitored(run, n);
    BeginWhole(run.states[n], run.events[n].now);
    BegunInTime(run.states[n], run.events[n].now);
  }

  /** A claim is granted exactly once per reader, from the opening until ten seconds later. */
  lemma ClaimedExactly(st: State, i: Index, now: int)
    ensures Claims(st, i, now) <==>
              && st.sampling.round.Some? && !st.sampling.round.value.claimed.At(i)
              && st.sampling.round.value.openedAt <= now && InTime(st, now)
    ensures Claims(st, i, now) ==>
              && ClaimRound(st, i, now).sampling.round.Some?
              && ClaimRound(st, i, now).sampling.round.value.claimed.At(i)
  {
    if i == 0 {} else {}
  }

  /** In a run, a claimed round was opened before, at most ten seconds earlier. */
  lemma ClaimWithin(run: Run, c: nat, i: Index, id: nat) returns (o: nat)
    requires IsRun(run) && ClaimedAt(run, c, i, id)
    ensures o < c && OpenedAt(run, o, id) && run.events[o].now <= run.events[c].now <= run.events[o].now + 10 * SECOND
  {
    hide Step, Opens;
    StartBlank(run);
    o := RoundOpened(run, 0, c);
  }

  /** Some eligible slot waits without power, and the service is not stopping. */
  lemma WaitingExactly(st: State)
    ensures HasInactiveCandidate(st) <==>
              && !st.sampling.stopped
              && exists i: Index ::
                   var s := st.slots.At(i);
                   s.eligible && !s.absent && !s.held && !s.active && !s.offPending
  {
    assert st.slots.At(0) == st.slots.first && st.slots.At(1) == st.slots.second;
  }

  // ----- Pairing -----

  /** The sample was taken within the round, in order, in at most two seconds, in at most ten of the round. */
  predicate Taken(r: Round, a: Acquisition) {
    && r.openedAt <= a.start && a.start <= a.end && a.end <= a.complete
    && a.complete <= a.start + 2 * SECOND && a.complete <= r.openedAt + 10 * SECOND
  }

  /** Every instant of either interval is within a second of every instant of the other, and of its own. */
  predicate Together(a: Acquisition, b: Acquisition) {
    && a.end <= a.start + 1 * SECOND && b.end <= b.start + 1 * SECOND
    && a.end <= b.start + 1 * SECOND && b.end <= a.start + 1 * SECOND
  }

  /** The reading neither swaps the battery nor ends a reservation. */
  predicate Settles(s: Slot, a: Acquisition) {
    !AnotherSerial(s, a.data) && !(s.held && ReadsOff(s, a.data, a.complete))
  }

  /** A first delivery by the reader that claimed the round in progress. */
  predicate Delivers(st: State, i: Index, id: nat, a: Acquisition) {
    && id > 0 && st.sampling.round.Some? && Settles(st.slots.At(i), a)
    && var r := st.sampling.round.value;
    r.id == id && r.claimed.At(i) && r.samples.At(i).complete == 0
  }

  /** A delivery worth keeping: taken in time, and the slot believes it. */
  predicate Good(st: State, i: Index, a: Acquisition)
    requires st.sampling.round.Some?
  {
    Taken(st.sampling.round.value, a) && Trusted(st.slots.At(i), a.data, a.complete)
  }

  /** The partner's sample is stored, is still what its slot shows, and was taken together with `a`. */
  predicate Matches(st: State, i: Index, a: Acquisition)
    requires st.sampling.round.Some?
  {
    var b, other := st.sampling.round.value.samples.At(1 - i), st.slots.At(1 - i);
    b.complete != 0 && Together(a, b) && D.Recent(other, a.complete) && other.observed == b.complete
  }

  predicate Partnered(s: Slot) {
    s.powerTracked || s.held || s.offPending
  }

  lemma TogetherExactly(a: Acquisition, b: Acquisition)
    requires a.start <= a.end && b.start <= b.end
    ensures Span(a, b) <= PAIR_SKEW <==> Together(a, b)
    ensures Span(a, b) == Span(b, a)
  {}

  /** What noting the frame leaves of the round and of both slots. */
  lemma NotedFacts(st: State, i: Index, id: nat, a: Acquisition)
    ensures var noted := Noted(st, i, id, a);
            && noted.sampling.round == (if Settles(st.slots.At(i), a) then st.sampling.round else None)
            && noted.sampling.enabled == st.sampling.enabled && noted.coordinated == st.coordinated
            && noted.sampling.stopped == st.sampling.stopped
            && noted.slots.At(i).valid == Trusted(st.slots.At(i), a.data, a.complete)
            && noted.slots.At(i).observed == a.complete
            && var o, s := noted.slots.At(1 - i), st.slots.At(1 - i);
            && o.valid == s.valid && o.observed == s.observed && o.powerTracked == s.powerTracked
            && o.held == s.held && o.offPending == s.offPending
  {
    hide ObserveFrame, Settled, SerialSwap, Read, ShowsOff, ShowsOn, AnotherSerial, ReadsOff, Trusted;
    FrameFacts(st, i, a.data, a.complete);
    ReadingSlot(st.slots.At(i), a.data, a.complete);
    ReadingJudged(st.slots.At(i), a.data, a.complete);
    SettledPower(st.slots.At(i), a.data, a.complete);
    if i == 0 {} else {}
  }

  /** The pair test, told from the two samples and the partner's slot. */
  lemma PairTest(noted: State, r: Round, i: Index, a: Acquisition)
    requires noted.sampling.round == Some(r) && Taken(r, a)
    requires noted.slots.At(i).valid && noted.slots.At(i).observed == a.complete
    requires r.samples.At(1 - i).start <= r.samples.At(1 - i).end
    ensures Pairs(noted, Stored(r, i, a), a.complete) <==>
              && Together(a, r.samples.At(1 - i)) && D.Recent(noted.slots.At(1 - i), a.complete)
              && noted.slots.At(1 - i).observed == r.samples.At(1 - i).complete
  {
    TogetherExactly(a, r.samples.At(1 - i));
    if i == 0 {
      assert Stored(r, i, a).samples == Pair(a, r.samples.second);
    } else {
      assert Stored(r, i, a).samples == Pair(r.samples.first, a);
    }
    hide Span, Together;
  }

  lemma StoredInOrder(st: State, i: Index)
    requires Inv(st) && st.sampling.round.Some?
    ensures var b := st.sampling.round.value.samples.At(i);
            b.complete != 0 ==> b.start <= b.end
  {
    hide SlotInv, EpisodeInv, PairInv;
    if i == 0 {} else {}
  }

  lemma TakenExactly(r: Round, a: Acquisition)
    ensures Timely(r, a) <==> Taken(r, a)
  {}

  /** Which deliveries complete a pair, which wait for their partner, and which need none. */
  lemma DeliveredExactly(st: State, i: Index, id: nat, a: Acquisition)
    requires Inv(st) && PairedMode(st)
    ensures var noted := Noted(st, i, id, a);
            var first := Delivers(st, i, id, a) && Good(st, i, a);
            var partnered := Partnered(st.slots.At(1 - i));
            && (Concludes(noted, i, id, a) <==> first && (!partnered || Matches(st, i, a)))
            && (History.PairsUp(noted, i, id, a) <==> first && partnered && Matches(st, i, a))
            && (first ==> noted.sampling.round == st.sampling.round)
            && (first && noted.sampling.round.Some? ==>
                  (History.AwaitsPartner(noted, i, a) <==>
                     partnered && st.sampling.round.value.samples.At(1 - i).complete == 0))
  {
    hide Inv, Noted, ObserveFrame, Settles, Taken, Trusted, Pairs, Timely, Together;
    var noted := Noted(st, i, id, a);
    NotedFacts(st, i, id, a);
    if noted.sampling.round.Some? {
      var r := noted.sampling.round.value;
      TakenExactly(r, a);
      StoredInOrder(st, 1 - i);
      if Taken(r, a) && noted.slots.At(i).valid && r.samples.At(1 - i).complete != 0 {
        PairTest(noted, r, i, a);
      }
    }
  }

  /** The pair made: its number and its time, with no round left. A good delivery without its partner
      is stored; every other first delivery ends round and pair. */
  lemma DeliveryOutcome(st: State, i: Index, id: nat, a: Acquisition)
    requires Inv(st) && PairedMode(st) && Delivers(st, i, id, a)
    ensures var t, r := ObserveAcquisition(st, i, id, a).sampling, st.sampling.round.value;
            var b := r.samples.At(1 - i);
            if !Good(st, i, a) || !Partnered(st.slots.At(1 - i)) then t.round == None && t.pairedId == 0
            else if Matches(st, i, a) then
              t.round == None && t.pairedId == id && t.pairedAt == Min(a.start, b.start)
            else if b.complete == 0 then t.round == Some(r.(samples := r.samples.With(i, a)))
            else t.round == None && t.pairedId == 0
  {
    NotedFacts(st, i, id, a);
    DeliveredExactly(st, i, id, a);
    FiledSampling(Noted(st, i, id, a), i, id, a);
    hide Inv, Noted, Good, Matches, Settles, Filed, Concludes, History.PairsUp, History.AwaitsPartner;
  }

  /** A delivery that is late, unclaimed, of another round, or that swaps or releases, ends round and pair. */
  lemma LateDelivery(st: State, i: Index, id: nat, a: Acquisition)
    requires PairedMode(st)
    requires var round := st.sampling.round;
             id == 0 || round.None? || round.value.id != id || !round.value.claimed.At(i)
             || !Settles(st.slots.At(i), a)
    ensures var t := ObserveAcquisition(st, i, id, a).sampling;
            t.round == None && t.pairedId == 0
  {
    NotedFacts(st, i, id, a);
    hide Noted, Settles, Deliver;
  }

  lemma FiledSampling(noted: State, i: Index, id: nat, a: Acquisition)
    requires PairedMode(noted) && Belongs(noted, i, id)
    requires noted.sampling.round.value.samples.At(i).complete == 0
    ensures var t, r := Filed(noted, i, id, a).sampling, noted.sampling.round.value;
            && (History.PairsUp(noted, i, id, a) ==>
                  && t.round == None && t.pairedId == r.id
                  && t.pairedAt == Min(a.start, r.samples.At(1 - i).start))
            && (History.AwaitsPartner(noted, i, a) ==> t.round == Some(Stored(r, i, a)))
            && (!History.PairsUp(noted, i, id, a) && !History.AwaitsPartner(noted, i, a) ==>
                  t.round == None && t.pairedId == 0)
  {
    hide Sound, MayRun, Pairs, Appended;
    if i == 0 {} else {}
  }
}

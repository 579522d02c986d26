/** Where measurements come from: every pair and every window sample goes back to a round
    opened, claimed and delivered after the last event that invalidated evidence. */
module Pairing {
  import opened Domain
  import opened Protocol
  import opened Runs
  import opened Invariant
  import opened Effects
  import opened Reservation

  // ----- How a step changes the evidence -----

  /** Sampling is on and both readers are coordinated, so only pairs fill the windows. */
  predicate PairedMode(st: State) {
    st.sampling.enabled && st.coordinated
  }

  /** No round, no pair and no samples. */
  predicate Blank(st: State) {
    && st.sampling.round.None? && st.sampling.pairedId == 0
    && st.slots.first.history == [] && st.slots.second.history == []
  }

  /** The pair and, in paired mode, the windows are kept or dropped, never gained. */
  ghost predicate RestKept(st: State, t: State) {
    && (t.sampling.pairedId == 0
        || (t.sampling.pairedId == st.sampling.pairedId && t.sampling.pairedAt == st.sampling.pairedAt))
    && (PairedMode(st) ==>
          && (t.slots.first.history == [] || t.slots.first.history == st.slots.first.history)
          && (t.slots.second.history == [] || t.slots.second.history == st.slots.second.history))
  }

  ghost predicate Kept(st: State, t: State) {
    (t.sampling.round.None? || t.sampling.round == st.sampling.round) && RestKept(st, t)
  }

  lemma WipeKept(st: State, unpair: bool, clear: bool)
    ensures Kept(st, Wipe(st, unpair, clear))
  {}

  lemma FrameKept(st: State, i: Index, data: Frame, now: int)
    ensures Kept(st, ObserveFrame(st, i, data, now))
  {
    hide Settled, EpisodeAfter, Releases, SerialSwap, ShowsOn, ShowsOff, Appended;
    ReadHistory(st.slots.At(i), data, now);
    if i == 0 {} else {}
  }

  lemma ReadHistory(s: Slot, data: Frame, now: int)
    ensures Read(s, data, now).history == [] || Read(s, data, now).history == s.history
  {}

  lemma NotedKept(st: State, i: Index, id: nat, a: Acquisition)
    ensures Kept(st, Noted(st, i, id, a))
  {
    hide ObserveFrame;
    FrameKept(st, i, a.data, a.complete);
    if i == 0 {} else {}
  }

  lemma RequestKept(st: State, i: Index, now: int, maxDelta: nat, jumped: bool)
    ensures Kept(st, RequestOn(st, i, now, maxDelta, jumped))
  {
    hide Decide, Selected, Dropped;
    var r := Verdict(st, i, now, maxDelta, jumped);
    var drop := r.Requalified? || r.Admitted?;
    WipeKept(Reconcile(st, now, maxDelta), drop, drop);
    if i == 0 {} else {}
  }

  lemma SlotsKept(st: State, e: Event)
    requires || e.SetRoleEvent? || e.TagEvent? || e.FailEvent? || e.AbsentEvent? || e.OffEvent? || e.CorrectiveOffEvent?
             || e.SetSeatboxEvent?
    ensures Kept(st, Step(st, e))
  {
    hide CorrectiveOff, NonDriving, Attempted;
  }

  lemma SurroundingsKept(st: State, e: Event)
    requires || e.SetVehicleEvent? || e.MotionEvent? || e.ResetMotionEvent? || e.ShouldIsolateEvent?
             || e.StopSamplingEvent?
    ensures Kept(st, Step(st, e))
  {
    hide Selected, Dropped, MotionTurns, MotionAfter, StoppedMotionFresh, Checked, VehicleShift;
  }

  lemma QuietKept(st: State, e: Event)
    requires !e.BeginRoundEvent? && !e.ClaimRoundEvent? && !e.AcquireEvent?
    ensures Kept(st, Step(st, e))
  {
    hide Kept, RequestOn, ObserveFrame;
    match e
    case RequestOnEvent(i, now, maxDelta, jumped) => RequestKept(st, i, now, maxDelta, jumped);
    case ObserveEvent(i, data, now) => FrameKept(st, i, data, now);
    case SetVehicleEvent(_, _, _) => SurroundingsKept(st, e);
    case MotionEvent(_, _, _) => SurroundingsKept(st, e);
    case ResetMotionEvent => SurroundingsKept(st, e);
    case ShouldIsolateEvent(_, _, _) => SurroundingsKept(st, e);
    case StopSamplingEvent => SurroundingsKept(st, e);
    case _ => SlotsKept(st, e);
  }

  /** A first, timely delivery by the reader that claimed the open round. */
  ghost predicate Fits(st: State, i: Index, id: nat, a: Acquisition) {
    && id != 0 && st.sampling.round.Some?
    && var r := st.sampling.round.value;
    r.id == id && r.claimed.At(i) && Timely(r, a)
  }

  ghost predicate Stores(st: State, t: State, i: Index, id: nat, a: Acquisition) {
    Fits(st, i, id, a) && t.sampling.round == Some(Stored(st.sampling.round.value, i, a)) && RestKept(st, t)
  }

  /** Every sample of `after` is one of `before` or the sample `a`. */
  ghost predicate GainsOnly(before: seq<Sample>, after: seq<Sample>, a: Acquisition) {
    forall x | x in after :: x in before || x == Sample(a.data, a.start)
  }

  ghost predicate MakesPair(st: State, t: State, i: Index, id: nat, a: Acquisition) {
    && Fits(st, i, id, a)
    && var s := Stored(st.sampling.round.value, i, a).samples;
    && s.At(1 - i).complete != 0 && Span(s.first, s.second) <= PAIR_SKEW
    && t.sampling.round.None? && t.sampling.pairedId == id && t.sampling.pairedAt == Min(s.first.start, s.second.start)
    && GainsOnly(st.slots.first.history, t.slots.first.history, s.first)
    && GainsOnly(st.slots.second.history, t.slots.second.history, s.second)
  }

  lemma {:induction false} PrunedMembers(h: seq<Sample>, now: int, x: Sample)
    requires x in Pruned(h, now)
    ensures x in h
    decreases |h|
  {
    if |h| > 3 && now - h[1].at >= STABLE_TIME {
      PrunedMembers(h[1..], now, x);
    }
  }

  lemma AppendedGains(h: seq<Sample>, a: Acquisition)
    ensures GainsOnly(h, Appended(h, Sample(a.data, a.start)), a)
  {
    var x := Sample(a.data, a.start);
    forall y | y in Appended(h, x)
      ensures y in h || y == x
    {
      var kept := if |h| > 0 && x.at - h[|h| - 1].at > MAX_AGE then [] else h;
      PrunedMembers(kept + [x], x.at, y);
    }
  }

  /** A delivery keeps or drops the evidence, stores one sample, or completes a pair. */
  lemma AcquireOutcome(st: State, i: Index, id: nat, a: Acquisition)
    ensures var t := ObserveAcquisition(st, i, id, a);
            Kept(st, t) || Stores(st, t, i, id, a) || MakesPair(st, t, i, id, a)
  {
    hide Noted, Deliver, Timely, Span, SameSurroundings;
    var noted := Noted(st, i, id, a);
    NotedKept(st, i, id, a);
    NotedMode(st, i, id, a);
    WipeKept(noted, true, noted.sampling.enabled);
    if PairedMode(noted) && Belongs(noted, i, id) {
      DeliverOutcome(st, noted, i, id, a);
    }
  }

  lemma NotedMode(st: State, i: Index, id: nat, a: Acquisition)
    ensures PairedMode(Noted(st, i, id, a)) == PairedMode(st)
  {
    hide ObserveFrame;
    FrameSurroundings(st, i, a.data, a.complete);
  }

  lemma PairOutcome(st: State, noted: State, i: Index, id: nat, a: Acquisition)
    requires Kept(st, noted) && PairedMode(st) && PairedMode(noted) && Belongs(noted, i, id) && Completes(noted, i, a)
    ensures MakesPair(st, WithPair(noted, Stored(noted.sampling.round.value, i, a)), i, id, a)
  {
    hide Timely, Span, Appended, GainsOnly, MayRun, Current;
    var r := noted.sampling.round.value;
    var s := Stored(r, i, a).samples;
    var w := WithPair(noted, Stored(r, i, a));
    AppendedGains(noted.slots.first.history, s.first);
    AppendedGains(noted.slots.second.history, s.second);
    GainsWeaken(st.slots.first.history, noted.slots.first.history, w.slots.first.history, s.first);
    GainsWeaken(st.slots.second.history, noted.slots.second.history, w.slots.second.history, s.second);
  }

  lemma DeliverOutcome(st: State, noted: State, i: Index, id: nat, a: Acquisition)
    requires Kept(st, noted) && PairedMode(st) && PairedMode(noted) && Belongs(noted, i, id)
    ensures var t := Deliver(noted, i, a);
            Kept(st, t) || Stores(st, t, i, id, a) || MakesPair(st, t, i, id, a)
  {
    hide Timely, MakesPair, MayRun, Completes, WithPair, Wipe;
    if Completes(noted, i, a) {
      PairOutcome(st, noted, i, id, a);
    } else {
      WipeKept(noted, true, noted.sampling.enabled);
    }
  }

  lemma GainsWeaken(whole: seq<Sample>, before: seq<Sample>, after: seq<Sample>, a: Acquisition)
    requires before == [] || before == whole
    requires GainsOnly(before, after, a)
    ensures GainsOnly(whole, after, a)
  {}

  ghost predicate OpensRound(st: State, t: State, e: Event) {
    && e.BeginRoundEvent? && Opens(st, e.now)
    && t.sampling.round == Some(NewRound(st.sampling.next + 1, e.now)) && RestKept(st, t)
  }

  ghost predicate ClaimsRound(st: State, t: State, e: Event) {
    && e.ClaimRoundEvent? && Claims(st, e.slot, e.now)
    && var r := st.sampling.round.value;
    t.sampling.round == Some(r.(claimed := r.claimed.With(e.slot, true))) && RestKept(st, t)
  }

  /** Every step keeps or drops the evidence, opens or claims a round, stores a sample or
      completes a pair. */
  lemma EvidenceOutcome(st: State, e: Event)
    ensures var t := Step(st, e);
            || Kept(st, t) || OpensRound(st, t, e) || ClaimsRound(st, t, e)
            || (e.AcquireEvent? && Stores(st, t, e.slot, e.id, e.sample))
            || (e.AcquireEvent? && MakesPair(st, t, e.slot, e.id, e.sample))
  {
    hide Step, Stores, MakesPair, Kept, OpensRound, ClaimsRound;
    match e
    case AcquireEvent(i, id, a) => AcquireOutcome(st, i, id, a); StepIsAcquire(st, e);
    case BeginRoundEvent(now) => BeginOutcome(st, e);
    case ClaimRoundEvent(i, now) => ClaimOutcome(st, e);
    case _ => QuietKept(st, e);
  }

  lemma StepIsAcquire(st: State, e: Event)
    requires e.AcquireEvent?
    ensures Step(st, e) == ObserveAcquisition(st, e.slot, e.id, e.sample)
  {}

  lemma BeginOutcome(st: State, e: Event)
    requires e.BeginRoundEvent?
    ensures Kept(st, Step(st, e)) || OpensRound(st, Step(st, e), e)
  {
    hide OpenRound, Opens, Wipe;
    var drop := !OpenRound(st, e.now) && st.sampling.round.Some?;
    WipeKept(st, drop, drop && st.sampling.enabled);
    WipeNext(st, drop, drop && st.sampling.enabled);
  }

  lemma WipeNext(st: State, unpair: bool, clear: bool)
    ensures Wipe(st, unpair, clear).sampling.next == st.sampling.next
  {}

  lemma ClaimOutcome(st: State, e: Event)
    requires e.ClaimRoundEvent?
    ensures Kept(st, Step(st, e)) || ClaimsRound(st, Step(st, e), e)
  {}

  // ----- Where a round's samples come from -----

  ghost predicate OpenedAt(run: Run, k: nat, id: nat)
    requires IsRun(run)
  {
    && k < |run.events| && run.events[k].BeginRoundEvent?
    && Opens(run.states[k], run.events[k].now) && run.states[k].sampling.next + 1 == id
  }

  ghost predicate ClaimedAt(run: Run, k: nat, i: Index, id: nat)
    requires IsRun(run)
  {
    && k < |run.events| && run.events[k].ClaimRoundEvent? && run.events[k].slot == i
    && Claims(run.states[k], i, run.events[k].now) && run.states[k].sampling.round.value.id == id
  }

  /** The events at which a round was opened, claimed by a reader, and its sample delivered. */
  datatype Origin = Origin(open: nat, claim: nat, deliver: nat)

  /** Reader `i` delivered `a` for round `id`, which was opened at or after event `m`: it claimed
      the round first and read within it, in at most two seconds. */
  ghost predicate AcquiredBy(run: Run, m: nat, n: nat, i: Index, q: Origin, id: nat, a: Acquisition)
    requires IsRun(run) && n <= |run.events|
  {
    && m <= q.open < q.claim < q.deliver < n
    && OpenedAt(run, q.open, id) && ClaimedAt(run, q.claim, i, id)
    && run.events[q.deliver] == AcquireEvent(i, id, a)
    && run.events[q.open].now <= a.start <= a.end <= a.complete
    && a.complete - a.start <= FRAME_LIMIT && a.complete - run.events[q.open].now <= ROUND_DEADLINE
  }

  lemma StartBlank(run: Run)
    requires IsRun(run)
    ensures Blank(run.states[0])
  {
    hide Step, Initial;
    StartUntouched(run);
  }

  lemma OutcomeAt(run: Run, k: nat)
    requires IsRun(run) && k < |run.events|
    ensures var st, t, e := run.states[k], run.states[k + 1], run.events[k];
            || Kept(st, t) || OpensRound(st, t, e) || ClaimsRound(st, t, e)
            || (e.AcquireEvent? && Stores(st, t, e.slot, e.id, e.sample))
            || (e.AcquireEvent? && MakesPair(st, t, e.slot, e.id, e.sample))
  {
    hide Step, Allowed, Inv, Kept, OpensRound, ClaimsRound, Stores, MakesPair;
    StepOf(run, k);
    EvidenceOutcome(run.states[k], run.events[k]);
  }

  lemma {:induction false} RoundOpened(run: Run, m: nat, n: nat) returns (o: nat)
    requires IsRun(run) && m <= n <= |run.events| && Blank(run.states[m])
    requires run.states[n].sampling.round.Some?
    ensures m <= o < n && OpenedAt(run, o, run.states[n].sampling.round.value.id)
    ensures run.events[o].now == run.states[n].sampling.round.value.openedAt
    decreases n
  {
    hide Step, Opens, Timely, RestKept, MakesPair;
    OutcomeAt(run, n - 1);
    var st, t, e := run.states[n - 1], run.states[n], run.events[n - 1];
    if OpensRound(st, t, e) {
      o := n - 1;
    } else {
      assert !MakesPairNow(st, t, e) by { PairEndsRound(st, t, e); }
      o := RoundOpened(run, m, n - 1);
    }
  }

  ghost predicate MakesPairNow(st: State, t: State, e: Event) {
    e.AcquireEvent? && MakesPair(st, t, e.slot, e.id, e.sample)
  }

  lemma PairEndsRound(st: State, t: State, e: Event)
    ensures MakesPairNow(st, t, e) ==> t.sampling.round.None?
  {}

  lemma {:induction false} RoundClaimed(run: Run, m: nat, n: nat, i: Index) returns (o: nat, c: nat)
    requires IsRun(run) && m <= n <= |run.events| && Blank(run.states[m])
    requires run.states[n].sampling.round.Some? && run.states[n].sampling.round.value.claimed.At(i)
    ensures var r := run.states[n].sampling.round.value;
            && m <= o < c < n && OpenedAt(run, o, r.id) && ClaimedAt(run, c, i, r.id)
            && run.events[o].now == r.openedAt
    decreases n
  {
    hide Step, Opens, Timely, RestKept, MakesPair;
    OutcomeAt(run, n - 1);
    var st, t, e := run.states[n - 1], run.states[n], run.events[n - 1];
    PairEndsRound(st, t, e);
    assert !MakesPairNow(st, t, e);
    if ClaimsRound(st, t, e) && e.slot == i {
      c := n - 1;
      o := RoundOpened(run, m, n - 1);
    } else {
      o, c := RoundClaimed(run, m, n - 1, i);
    }
  }

  lemma {:induction false} SampleDelivered(run: Run, m: nat, n: nat, i: Index) returns (q: Origin)
    requires IsRun(run) && m <= n <= |run.events| && Blank(run.states[m])
    requires run.states[n].sampling.round.Some? && run.states[n].sampling.round.value.samples.At(i).complete != 0
    ensures var r := run.states[n].sampling.round.value;
            && AcquiredBy(run, m, n, i, q, r.id, r.samples.At(i))
            && run.events[q.open].now == r.openedAt
    decreases n
  {
    hide Step, Opens, RestKept, MakesPair;
    OutcomeAt(run, n - 1);
    var st, t, e := run.states[n - 1], run.states[n], run.events[n - 1];
    PairEndsRound(st, t, e);
    assert !MakesPairNow(st, t, e);
    if e.AcquireEvent? && e.slot == i && Stores(st, t, i, e.id, e.sample) {
      var o, c := RoundClaimed(run, m, n - 1, i);
      q := Origin(o, c, n - 1);
    } else {
      q := SampleDelivered(run, m, n - 1, i);
    }
  }

  // ----- Round numbers and claims are used once -----

  lemma {:induction false} NextGrows(run: Run, j: nat, k: nat)
    requires IsRun(run) && j <= k <= |run.events|
    ensures run.states[j].sampling.next <= run.states[k].sampling.next
    decreases k
  {
    hide Step, Allowed, Inv, Opens;
    if j < k {
      NextGrows(run, j, k - 1);
      StepOf(run, k - 1);
      ConfigStep(run.states[k - 1], run.events[k - 1]);
    }
  }

  lemma OpenedNext(run: Run, k: nat, id: nat)
    requires IsRun(run) && OpenedAt(run, k, id)
    ensures run.states[k + 1].sampling.next == id
  {
    hide Step, Allowed, Inv, Opens;
    StepOf(run, k);
    ConfigStep(run.states[k], run.events[k]);
  }

  /** A round number names one opening. */
  lemma OpenedOnce(run: Run, j: nat, k: nat, id: nat)
    requires IsRun(run) && OpenedAt(run, j, id) && OpenedAt(run, k, id)
    ensures j == k
  {
    hide Step, Opens;
    OpenedNext(run, j, id);
    OpenedNext(run, k, id);
    if j < k {
      NextGrows(run, j + 1, k);
    } else if k < j {
      NextGrows(run, k + 1, j);
    }
  }

  /** Reader `i` has claimed round `id`, or the round is over. */
  ghost predicate Spent(st: State, i: Index, id: nat) {
    && id <= st.sampling.next
    && (st.sampling.round.Some? && st.sampling.round.value.id == id ==> st.sampling.round.value.claimed.At(i))
  }

  lemma SpentStep(st: State, t: State, e: Event, i: Index, id: nat)
    requires Spent(st, i, id) && st.sampling.next <= t.sampling.next
    requires || Kept(st, t) || OpensRound(st, t, e) || ClaimsRound(st, t, e)
             || (e.AcquireEvent? && Stores(st, t, e.slot, e.id, e.sample)) || MakesPairNow(st, t, e)
    ensures Spent(t, i, id)
  {
    hide Opens, Timely, RestKept;
  }

  lemma {:induction false} ClaimSpent(run: Run, k: nat, n: nat, i: Index, id: nat)
    requires IsRun(run) && k < n <= |run.events| && ClaimedAt(run, k, i, id)
    ensures Spent(run.states[n], i, id)
    decreases n
  {
    hide Step, Allowed, Inv, Kept, OpensRound, Stores, MakesPair, Claims;
    StepOf(run, n - 1);
    OutcomeAt(run, n - 1);
    NextGrows(run, n - 1, n);
    if n > k + 1 {
      ClaimSpent(run, k, n - 1, i, id);
      SpentStep(run.states[n - 1], run.states[n], run.events[n - 1], i, id);
    } else {
      ClaimSpends(run.states[k], run.events[k]);
    }
  }

  lemma ClaimSpends(st: State, e: Event)
    requires Inv(st) && e.ClaimRoundEvent? && Claims(st, e.slot, e.now)
    ensures Spent(Step(st, e), e.slot, st.sampling.round.value.id)
  {
    hide SlotInv, EpisodeInv, PairInv, StoredInv;
  }

  /** Each reader claims a round at most once. */
  lemma ClaimedOnce(run: Run, j: nat, k: nat, i: Index, id: nat)
    requires IsRun(run) && ClaimedAt(run, j, i, id) && ClaimedAt(run, k, i, id)
    ensures j == k
  {
    hide Step;
    if j < k {
      ClaimSpent(run, j, k, i, id);
    } else if k < j {
      ClaimSpent(run, k, j, i, id);
    }
  }

  // ----- Where a pair comes from -----

  /** The pair of state `n`: two samples of one round opened at or after event `m`, whose STATUS0
      intervals span at most a second, and which are what the slots still show. */
  ghost predicate PairFrom(run: Run, m: nat, n: nat, p: Origin, a: Acquisition, q: Origin, b: Acquisition)
    requires IsRun(run) && n <= |run.events|
  {
    var st := run.states[n];
    var id := st.sampling.pairedId;
    && AcquiredBy(run, m, n, 0, p, id, a) && AcquiredBy(run, m, n, 1, q, id, b) && p.open == q.open
    && Span(a, b) <= PAIR_SKEW && st.sampling.pairedAt == Min(a.start, b.start)
    && (st.slots.first.observedRound == id ==> st.slots.first.frame == a.data)
    && (st.slots.second.observedRound == id ==> st.slots.second.frame == b.data)
  }

  /** A late or repeated delivery under the paired round's number ends the pair. */
  lemma StaleMark(st: State, i: Index, id: nat, a: Acquisition)
    requires Inv(st) && id == st.sampling.pairedId != 0
    ensures ObserveAcquisition(st, i, id, a).sampling.pairedId == 0
  {
    hide Inv, ObserveFrame, Settled, Releases, SerialSwap, Deliver, StoredInv;
    InvParts(st, i);
    FrameFacts(st, i, a.data, a.complete);
  }

  lemma PairFrameStep(st: State, e: Event, i: Index)
    requires Inv(st) && st.sampling.pairedId != 0 && Step(st, e).sampling.pairedId == st.sampling.pairedId
    requires Step(st, e).slots.At(i).observedRound == st.sampling.pairedId
    ensures st.slots.At(i).observedRound == st.sampling.pairedId
    ensures st.slots.At(i).frame == Step(st, e).slots.At(i).frame
  {
    hide Step, Inv, Verdict, Settled, CorrectiveOff, ObserveAcquisition;
    SlotStep(st, e, i);
    if SeatboxMoves(st, e) {
    } else if Reads(e, i) {
      SettledPower(st.slots.At(i), ReadData(e), ReadTime(e));
      if e.AcquireEvent? && e.id == st.sampling.pairedId {
        StaleMark(st, i, e.id, e.sample);
        StepIsAcquire(st, e);
      }
    } else if e.RequestOnEvent? && e.slot == i {
    } else if CommandsOff(st, e, i) {
    } else if e.TagEvent? && e.slot == i {
    }
  }

  lemma MakesPairFrames(st: State, e: Event)
    requires Inv(st) && MakesPairNow(st, Step(st, e), e)
    ensures var t, s := Step(st, e), Stored(st.sampling.round.value, e.slot, e.sample).samples;
            && (t.slots.first.observedRound == e.id ==> t.slots.first.frame == s.first.data)
            && (t.slots.second.observedRound == e.id ==> t.slots.second.frame == s.second.data)
  {
    hide Step, Inv, Settled, GainsOnly, Timely, Span, SlotInv, EpisodeInv, PairInv;
    InvParts(st, 0);
    SlotStep(st, e, 0);
    SlotStep(st, e, 1);
    SettledPower(st.slots.At(e.slot), e.sample.data, e.sample.complete);
    if e.slot == 0 {} else {}
  }

  lemma AcquiredLater(run: Run, m: nat, n: nat, i: Index, q: Origin, id: nat, a: Acquisition)
    requires IsRun(run) && n < |run.events| && AcquiredBy(run, m, n, i, q, id, a)
    ensures AcquiredBy(run, m, n + 1, i, q, id, a)
  {
    hide Step, Opens, Claims;
  }

  /** The step that completes a pair delivers one of its samples; the other was delivered before. */
  lemma PairCompleted(run: Run, m: nat, n: nat) returns (p: Origin, a: Acquisition, q: Origin, b: Acquisition)
    requires IsRun(run) && m <= n < |run.events| && Blank(run.states[m])
    requires MakesPairNow(run.states[n], run.states[n + 1], run.events[n])
    ensures PairFrom(run, m, n + 1, p, a, q, b)
    ensures var s := Stored(run.states[n].sampling.round.value, run.events[n].slot, run.events[n].sample).samples;
            a == s.first && b == s.second
  {
    hide Step, Allowed, Inv, Opens, Claims, GainsOnly, Span, Blank;
    var st, e := run.states[n], run.events[n];
    StepOf(run, n);
    MakesPairFrames(st, e);
    var r := st.sampling.round.value;
    a, b := Stored(r, e.slot, e.sample).samples.first, Stored(r, e.slot, e.sample).samples.second;
    var o, c := RoundClaimed(run, m, n, e.slot);
    var other := SampleDelivered(run, m, n, 1 - e.slot);
    OpenedOnce(run, o, other.open, r.id);
    AcquiredLater(run, m, n, 1 - e.slot, other, r.id, r.samples.At(1 - e.slot));
    if e.slot == 0 {
      p, q := Origin(o, c, n), other;
    } else {
      p, q := other, Origin(o, c, n);
    }
  }

  lemma {:induction false} PairDelivered(run: Run, m: nat, n: nat)
    returns (p: Origin, a: Acquisition, q: Origin, b: Acquisition)
    requires IsRun(run) && m <= n <= |run.events| && Blank(run.states[m])
    requires run.states[n].sampling.pairedId != 0
    ensures PairFrom(run, m, n, p, a, q, b)
    decreases n
  {
    hide Step, Allowed, Inv, MakesPair, AcquiredBy, Span, Opens, Claims, Timely;
    OutcomeAt(run, n - 1);
    StepOf(run, n - 1);
    var st, t, e := run.states[n - 1], run.states[n], run.events[n - 1];
    if MakesPairNow(st, t, e) {
      p, a, q, b := PairCompleted(run, m, n - 1);
    } else {
      p, a, q, b := PairDelivered(run, m, n - 1);
      AcquiredLater(run, m, n - 1, 0, p, st.sampling.pairedId, a);
      AcquiredLater(run, m, n - 1, 1, q, st.sampling.pairedId, b);
      if t.slots.first.observedRound == t.sampling.pairedId {
        PairFrameStep(st, e, 0);
      }
      if t.slots.second.observedRound == t.sampling.pairedId {
        PairFrameStep(st, e, 1);
      }
    }
  }

  // ----- Where a window's samples come from -----

  ghost predicate SampleFrom(run: Run, m: nat, n: nat, i: Index, q: Origin, id: nat, a: Acquisition, x: Sample)
    requires IsRun(run) && n <= |run.events|
  {
    AcquiredBy(run, m, n, i, q, id, a) && x == Sample(a.data, a.start)
  }

  lemma {:induction false} PairedModeLasts(run: Run, m: nat, n: nat)
    requires IsRun(run) && m <= n <= |run.events| && PairedMode(run.states[m])
    ensures PairedMode(run.states[n])
    decreases n
  {
    hide Step, Allowed, Inv, Opens;
    if m < n {
      PairedModeLasts(run, m, n - 1);
      StepOf(run, n - 1);
      ConfigStep(run.states[n - 1], run.events[n - 1]);
    }
  }

  lemma {:induction false} SampleOrigin(run: Run, m: nat, n: nat, i: Index, x: Sample)
    returns (q: Origin, id: nat, a: Acquisition)
    requires IsRun(run) && m <= n <= |run.events| && Blank(run.states[m]) && PairedMode(run.states[m])
    requires x in run.states[n].slots.At(i).history
    ensures SampleFrom(run, m, n, i, q, id, a, x)
    decreases n
  {
    hide Step, Allowed, Inv, AcquiredBy, Span, Opens, Claims, Timely;
    OutcomeAt(run, n - 1);
    PairedModeLasts(run, m, n - 1);
    var st, t, e := run.states[n - 1], run.states[n], run.events[n - 1];
    if x in st.slots.At(i).history {
      q, id, a := SampleOrigin(run, m, n - 1, i, x);
      AcquiredLater(run, m, n - 1, i, q, id, a);
    } else {
      assert MakesPairNow(st, t, e);
      var p0, a0, p1, a1 := PairCompleted(run, m, n - 1);
      id := t.sampling.pairedId;
      q, a := if i == 0 then p0 else p1, if i == 0 then a0 else a1;
    }
  }
}

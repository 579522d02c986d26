/** A run in which a slot is ordered off and then granted ON: the OFF/ON disagreement is real.
    Two active readers, conservative, sampling on, parked. Slot 0 supplies power at 56 V and reports
    a fault; slot 1 is idle and sound at 52 V. Three rounds pair the readings over six seconds. */
module Disagreement {
  import opened Domain
  import opened Protocol
  import opened Runs
  import opened Policies
  import Invariant

  const READERS := [Reader(0, true, true), Reader(1, true, true)]

  const SUPPLY := Frame(true, 56000, 0, 50, 1, false, Active, "", [0, 0, 0, 0], 0)
  const SPARE := Frame(true, 52000, 0, 50, 0, false, Idle, "", [0, 0, 0, 0], 0)

  const LAST: int := 100 * SECOND

  /** A slot that shows frame `f`, confirmed by an earlier change of payload. */
  function Showing(f: Frame, observed: int, round: nat, history: seq<Sample>): Slot {
    EMPTY_SLOT.(monitored := true, eligible := true, powerTracked := true, observed := observed,
                observedRound := round, frame := f, haveFrame := true, written := 80 * SECOND, valid := true,
                history := history, held := f.state.Active?, active := f.state.Active?)
  }

  function Seen(vehicle: Vehicle, first: Slot, second: Slot, sampling: Sampling): State {
    State(true, true, None, vehicle, Pair(first, second), sampling, Motion(true, 0, 0, false, "", 0, 0), false, false)
  }

  /** Round `id` has just been paired at time `at`. */
  function AfterRound(id: nat, at: int): Sampling {
    Sampling(true, false, id, None, at, id)
  }

  function DuringRound(id: nat, at: int, round: Round): Sampling {
    Sampling(true, false, round.id, Some(round), at, id)
  }

  function Pause(first: seq<Sample>, second: seq<Sample>, observed: int, id: nat, at: int): State {
    Seen(Parked, Showing(SUPPLY, observed, id, first), Showing(SPARE, observed, id, second), AfterRound(id, at))
  }

  // ----- Getting both slots read -----

  function Waiting(f: Frame, haveFrame: bool, observed: int): Slot {
    EMPTY_SLOT.(monitored := true, eligible := true, powerTracked := true, frame := f, haveFrame := haveFrame,
                observed := observed)
  }

  lemma StartState()
    ensures Initial(READERS, true, true, true)
            == Seen(Unlisted(""), Waiting(NO_FRAME, false, 0), Waiting(NO_FRAME, false, 0), AfterRound(0, 0))
  {
    assert READERS[..1][..0] == [];
    assert READERS[..1] == [Reader(0, true, true)];
    assert ConfiguredAll(BLANK_STATE, []) == BLANK_STATE;
    assert ConfiguredAll(BLANK_STATE, READERS[..1]) == Configured(BLANK_STATE, Reader(0, true, true));
    assert ConfiguredAll(BLANK_STATE, READERS)
        == Configured(Configured(BLANK_STATE, Reader(0, true, true)), Reader(1, true, true));
  }

  function Before(f: Frame): Frame {
    f.(voltage := f.voltage + 1000)
  }

  /** A reading that neither swaps the identity nor ends a reservation touches its slot alone. */
  lemma QuietReading(st: State, i: Index, data: Frame, now: int)
    requires st.sampling.enabled && st.coordinated && st.isolation.None?
    requires !SerialSwap(st.slots.At(i), data) && !Releases(st.slots.At(i), data, now)
    ensures ObserveFrame(st, i, data, now)
            == st.Put(i, Settled(st.slots.At(i), data, now).(history := Read(st.slots.At(i), data, now).history))
  {
    hide Settled, Read, SerialSwap, Releases, ShowsOn, ShowsOff;
    Invariant.WipeNothing(st);
  }

  /** The first reading of a new tag is recorded and not believed. */
  lemma FirstReading(f: Frame)
    requires f == SUPPLY || f == SPARE
    ensures var s, t := Waiting(NO_FRAME, false, 0), Waiting(Before(f), true, 79 * SECOND);
            && Read(s, Before(f), 79 * SECOND) == t && Settled(s, Before(f), 79 * SECOND) == t
            && !SerialSwap(s, Before(f)) && !Releases(s, Before(f), 79 * SECOND)
  {}

  /** The second one differs and is. */
  lemma SecondReading(f: Frame)
    requires f == SUPPLY || f == SPARE
    ensures var s, t := Waiting(Before(f), true, 79 * SECOND), Showing(f, 80 * SECOND, 0, []);
            && Read(s, f, 80 * SECOND).history == [] && Settled(s, f, 80 * SECOND) == t
            && !SerialSwap(s, f) && !Releases(s, f, 80 * SECOND)
  {}

  /** Later readings of the same payload only renew the slot. */
  lemma SameReading(f: Frame, observed: int, round: nat, history: seq<Sample>, now: int)
    requires f == SUPPLY || f == SPARE
    ensures var s, t := Showing(f, observed, round, history), Showing(f, now, 0, history);
            && Read(s, f, now).history == history && Settled(s, f, now) == t
            && !SerialSwap(s, f) && !Releases(s, f, now)
  {}

  lemma ReachPause()
    ensures Reachable(Pause([], [], 80 * SECOND, 0, 0), 80 * SECOND)
  {
    hide Reachable, Initial, Read, Settled, SerialSwap, Releases, ObserveFrame;
    var unread, none := Waiting(NO_FRAME, false, 0), AfterRound(0, 0);
    ReachStart(READERS, true, true, true);
    StartState();
    ReachParked();
    FirstReading(SUPPLY);
    FirstReading(SPARE);
    SecondReading(SUPPLY);
    SecondReading(SPARE);
    var a, b := Waiting(Before(SUPPLY), true, 79 * SECOND), Waiting(Before(SPARE), true, 79 * SECOND);
    ReachRead(Seen(Parked, unread, unread, none), 78 * SECOND, 0, Before(SUPPLY), 79 * SECOND, a);
    ReachRead(Seen(Parked, a, unread, none), 79 * SECOND, 1, Before(SPARE), 79 * SECOND, b);
    var c := Showing(SUPPLY, 80 * SECOND, 0, []);
    ReachRead(Seen(Parked, a, b, none), 79 * SECOND, 0, SUPPLY, 80 * SECOND, c);
    ReachRead(Seen(Parked, c, b, none), 80 * SECOND, 1, SPARE, 80 * SECOND, Showing(SPARE, 80 * SECOND, 0, []));
  }

  lemma ReachParked()
    requires var unread := Waiting(NO_FRAME, false, 0);
             Reachable(Seen(Unlisted(""), unread, unread, AfterRound(0, 0)), 0)
    ensures var unread := Waiting(NO_FRAME, false, 0);
            Reachable(Seen(Parked, unread, unread, AfterRound(0, 0)), 78 * SECOND)
  {
    hide Reachable;
    ReachNext(Seen(Unlisted(""), Waiting(NO_FRAME, false, 0), Waiting(NO_FRAME, false, 0), AfterRound(0, 0)), 0,
              SetVehicleEvent(Parked, 78 * SECOND, false), 78 * SECOND);
  }

  lemma ReachRead(st: State, before: int, i: Index, data: Frame, now: int, t: Slot)
    requires Reachable(st, before) && before <= now && st.sampling.enabled && st.coordinated && st.isolation.None?
    requires var s := st.slots.At(i);
             && s.monitored && !SerialSwap(s, data) && !Releases(s, data, now)
             && Settled(s, data, now).(history := Read(s, data, now).history) == t
    requires now > CLOCK_FLOOR
    ensures Reachable(st.Put(i, t), now)
  {
    hide Reachable, Read, Settled, SerialSwap, Releases, ObserveFrame;
    ReachNext(st, before, ObserveEvent(i, data, now), now);
    QuietReading(st, i, data, now);
  }

  // ----- One round -----

  function Reading(f: Frame, now: int): Acquisition {
    Acquisition(now, now, now, f)
  }

  function InRound(first: seq<Sample>, second: seq<Sample>, was: int, now: int, id: nat, at: int,
                   claimed: Pair<bool>, delivered: bool): State
  {
    var samples := Pair(if delivered then Reading(SUPPLY, now) else NO_ACQUISITION, NO_ACQUISITION);
    var supply := if delivered then Showing(SUPPLY, now, id + 1, first) else Showing(SUPPLY, was, id, first);
    Seen(Parked, supply, Showing(SPARE, was, id, second), DuringRound(id, at, Round(id + 1, now, claimed, samples)))
  }

  lemma Begins(first: seq<Sample>, second: seq<Sample>, was: int, now: int, id: nat, at: int)
    requires Reachable(Pause(first, second, was, id, at), was) && was <= now && now > CLOCK_FLOOR
    ensures Reachable(InRound(first, second, was, now, id, at, Pair(true, true), false), now)
  {
    hide Reachable;
    var st := Pause(first, second, was, id, at);
    ReachNext(st, was, BeginRoundEvent(now), now);
    assert Step(st, BeginRoundEvent(now)) == InRound(first, second, was, now, id, at, Pair(false, false), false);
    var c := InRound(first, second, was, now, id, at, Pair(false, false), false);
    ReachNext(c, now, ClaimRoundEvent(0, now), now);
    assert Step(c, ClaimRoundEvent(0, now)) == InRound(first, second, was, now, id, at, Pair(true, false), false);
    ReachNext(InRound(first, second, was, now, id, at, Pair(true, false), false), now, ClaimRoundEvent(1, now), now);
  }

  lemma Delivers(first: seq<Sample>, second: seq<Sample>, was: int, now: int, id: nat, at: int)
    requires Reachable(InRound(first, second, was, now, id, at, Pair(true, true), false), now) && now > CLOCK_FLOOR
    ensures Reachable(InRound(first, second, was, now, id, at, Pair(true, true), true), now)
  {
    hide Reachable, ObserveFrame;
    var st, a := InRound(first, second, was, now, id, at, Pair(true, true), false), Reading(SUPPLY, now);
    ReachNext(st, now, AcquireEvent(0, id + 1, a), now);
    SameReading(SUPPLY, was, id, first, now);
    QuietReading(st, 0, SUPPLY, now);
    assert Noted(st, 0, id + 1, a) == st.Put(0, Showing(SUPPLY, now, id + 1, first));
    assert Step(st, AcquireEvent(0, id + 1, a)) == InRound(first, second, was, now, id, at, Pair(true, true), true);
  }

  lemma Completed(first: seq<Sample>, second: seq<Sample>, was: int, now: int, id: nat, at: int)
    requires Reachable(InRound(first, second, was, now, id, at, Pair(true, true), true), now) && now > CLOCK_FLOOR
    ensures var longer, other := Appended(first, Sample(SUPPLY, now)), Appended(second, Sample(SPARE, now));
            Reachable(Pause(longer, other, now, id + 1, now), now)
  {
    hide Reachable, ObserveFrame, Appended;
    var st, a := InRound(first, second, was, now, id, at, Pair(true, true), true), Reading(SPARE, now);
    ReachNext(st, now, AcquireEvent(1, id + 1, a), now);
    SameReading(SPARE, was, id, second, now);
    QuietReading(st, 1, SPARE, now);
    assert Noted(st, 1, id + 1, a) == st.Put(1, Showing(SPARE, now, id + 1, second));
  }

  lemma RoundPairs(first: seq<Sample>, second: seq<Sample>, was: int, now: int, id: nat, at: int)
    requires Reachable(Pause(first, second, was, id, at), was) && was <= now && now > CLOCK_FLOOR
    requires |first| < 3 && |second| < 3
    requires first != [] ==> now - first[|first| - 1].at <= MAX_AGE
    requires second != [] ==> now - second[|second| - 1].at <= MAX_AGE
    ensures Reachable(Pause(first + [Sample(SUPPLY, now)], second + [Sample(SPARE, now)], now, id + 1, now), now)
  {
    hide Reachable, Pause;
    Begins(first, second, was, now, id, at);
    Delivers(first, second, was, now, id, at);
    Completed(first, second, was, now, id, at);
  }

  // ----- The disagreement -----

  function Window(f: Frame): seq<Sample> {
    [Sample(f, LAST - 6 * SECOND), Sample(f, LAST - 3 * SECOND), Sample(f, LAST)]
  }

  const DISPUTED := Pause(Window(SUPPLY), Window(SPARE), LAST, 3, LAST)

  lemma ReachDisputed()
    ensures Reachable(DISPUTED, LAST)
  {
    hide Reachable, Pause;
    ReachPause();
    RoundPairs([], [], 80 * SECOND, LAST - 6 * SECOND, 0, 0);
    var x, y := Sample(SUPPLY, LAST - 6 * SECOND), Sample(SPARE, LAST - 6 * SECOND);
    assert [] + [x] == [x] && [] + [y] == [y];
    RoundPairs([x], [y], LAST - 6 * SECOND, LAST - 3 * SECOND, 1, LAST - 6 * SECOND);
    var z, w := Sample(SUPPLY, LAST - 3 * SECOND), Sample(SPARE, LAST - 3 * SECOND);
    assert [x] + [z] == [x, z] && [y] + [w] == [y, w];
    RoundPairs([x, z], [y, w], LAST - 3 * SECOND, LAST, 2, LAST - 3 * SECOND);
    assert [x, z] + [Sample(SUPPLY, LAST)] == Window(SUPPLY) && [y, w] + [Sample(SPARE, LAST)] == Window(SPARE);
  }

  lemma DisputedStable(f: Frame)
    requires f == SUPPLY || f == SPARE
    ensures Showing(f, LAST, 3, Window(f)).Stable(LAST)
  {}

  lemma DisputedOrdersOff()
    ensures OrdersOff(Reconcile(DISPUTED, LAST, 1000), 0, LAST)
  {
    DisputedStable(SUPPLY);
    DisputedStable(SPARE);
    assert Mismatched(DISPUTED, LAST, 1000);
    assert Survivor(DISPUTED) == 1;
    assert Selected(DISPUTED, LAST, 1000) == Some(Episode(1, 0, false, true, false));
  }

  /** A reachable state in which slot 0 is ordered off and, by the request that follows, granted ON. */
  lemma DisagreementExists()
    ensures Reachable(DISPUTED, LAST)
    ensures OrdersOff(Reconcile(DISPUTED, LAST, 1000), 0, LAST)
    ensures Verdict(Reconcile(DISPUTED, LAST, 1000), 0, LAST, 1000, false).Granted()
  {
    hide Reachable, OrdersOff, Reconcile, Verdict;
    ReachDisputed();
    DisputedOrdersOff();
    OffThenOnDisagree(DISPUTED, 0, LAST, 1000, false);
  }
}

/** Runs of the coordinator: any interleaving of its atomic steps. */
module Runs {
  import opened Domain
  import opened Protocol

  datatype Event =
    | SetRoleEvent(slot: Index, eligible: bool)
    | SetVehicleEvent(vehicle: Vehicle, now: int, jumped: bool)
    | SetSeatboxEvent(closed: bool)
    | TagEvent(slot: Index, uid: string)
    | FailEvent(slot: Index)
    | AbsentEvent(slot: Index, now: int)
    | ObserveEvent(slot: Index, data: Frame, now: int)
    | AcquireEvent(slot: Index, id: nat, sample: Acquisition)
    | RequestOnEvent(slot: Index, now: int, maxDelta: nat, jumped: bool)
    | ShouldIsolateEvent(slot: Index, now: int, maxDelta: nat)
    | OffEvent(slot: Index, now: int)
    | CorrectiveOffEvent(slot: Index, now: int)
    | BeginRoundEvent(now: int)
    | ClaimRoundEvent(slot: Index, now: int)
    | StopSamplingEvent
    | MotionEvent(report: MotionReport, now: int, jumped: bool)
    | ResetMotionEvent

  ghost function Step(st: State, e: Event): State {
    match e
    case SetRoleEvent(i, eligible) => SetRole(st, i, eligible)
    case SetVehicleEvent(v, now, jumped) => SetVehicle(st, v, now, jumped)
    case SetSeatboxEvent(closed) => SetSeatbox(st, closed)
    case TagEvent(i, uid) => Tag(st, i, uid)
    case FailEvent(i) => FailAcquisition(st, i)
    case AbsentEvent(i, now) => ObserveAbsent(st, i, now)
    case ObserveEvent(i, data, now) => ObserveFrame(st, i, data, now)
    case AcquireEvent(i, id, sample) => ObserveAcquisition(st, i, id, sample)
    case RequestOnEvent(i, now, maxDelta, jumped) => RequestOn(st, i, now, maxDelta, jumped)
    case ShouldIsolateEvent(_, now, maxDelta) => Reconcile(st, now, maxDelta)
    case OffEvent(i, now) => OffAttempt(st, i, now)
    case CorrectiveOffEvent(i, now) => IsolationOff(st, i, now)
    case BeginRoundEvent(now) => BeginRound(st, now)
    case ClaimRoundEvent(i, now) => ClaimRound(st, i, now)
    case StopSamplingEvent => StopSampling(st)
    case MotionEvent(report, now, jumped) => ReceiveMotion(st, report, now, jumped)
    case ResetMotionEvent => ResetMotion(st)
  }

  /** The clock reading an event carries, for the events that carry one. */
  function Clock(e: Event): Option<int> {
    match e
    case SetVehicleEvent(_, now, _) => Some(now)
    case AbsentEvent(_, now) => Some(now)
    case ObserveEvent(_, _, now) => Some(now)
    case AcquireEvent(_, _, sample) => Some(sample.complete)
    case RequestOnEvent(_, now, _, _) => Some(now)
    case ShouldIsolateEvent(_, now, _) => Some(now)
    case OffEvent(_, now) => Some(now)
    case CorrectiveOffEvent(_, now) => Some(now)
    case BeginRoundEvent(now) => Some(now)
    case ClaimRoundEvent(_, now) => Some(now)
    case MotionEvent(_, now, _) => Some(now)
    case _ => None
  }

  /** What the rest of the service guarantees of a call: real clock readings, roles and
      observations only for monitored readers, and one delivery per claimed read. */
  predicate Allowed(st: State, e: Event) {
    && (Clock(e).Some? ==> Clock(e).value > CLOCK_FLOOR)
    && (e.SetRoleEvent? && e.eligible ==> st.slots.At(e.slot).monitored)
    && (e.ObserveEvent? || e.AcquireEvent? ==> st.slots.At(e.slot).monitored)
    && (e.AcquireEvent? && e.id != 0 && st.sampling.round.Some? && st.sampling.round.value.id == e.id ==>
          st.sampling.round.value.samples.At(e.slot).complete == 0)
  }

  datatype Reader = Reader(index: int, enabled: bool, active: bool)

  /** `newPackAdmission`, one configured reader at a time. */
  function Configured(st: State, r: Reader): State {
    if !(0 <= r.index < 2) then st
    else
      var i: Index := r.index;
      SetRole(st.Put(i, st.slots.At(i).(monitored := r.enabled)), i, r.enabled && r.active)
  }

  function ConfiguredAll(st: State, readers: seq<Reader>): State {
    if readers == [] then st
    else Configured(ConfiguredAll(st, readers[..|readers| - 1]), readers[|readers| - 1])
  }

  const BLANK_STATE :=
    State(false, true, None, Unlisted(""), Pair(EMPTY_SLOT, EMPTY_SLOT),
          Sampling(false, false, 0, None, 0, 0), Motion(false, 0, 0, false, "", 0, 0), false, false)

  function Initial(readers: seq<Reader>, conservative: bool, sampling: bool, motion: bool): State {
    var st := ConfiguredAll(BLANK_STATE, readers);
    st.(coordinated := st.slots.first.monitored && st.slots.second.monitored,
        conservative := conservative,
        sampling := st.sampling.(enabled := sampling),
        motion := st.motion.(enabled := motion))
  }

  /** `states[k + 1]` is what event `k` makes of `states[k]`. */
  datatype Run = Run(states: seq<State>, events: seq<Event>)

  ghost predicate StepAt(run: Run, k: nat)
    requires k + 1 < |run.states| && k < |run.events|
  {
    run.states[k + 1] == Step(run.states[k], run.events[k]) && Allowed(run.states[k], run.events[k])
  }

  ghost predicate IsRun(run: Run) {
    && |run.states| == |run.events| + 1
    && (exists readers, conservative, sampling, motion ::
          run.states[0] == Initial(readers, conservative, sampling, motion))
    && (forall k | 0 <= k < |run.events| :: StepAt(run, k))
  }

  /** The clock never runs backwards from one event to a later one. */
  ghost predicate Clocked(run: Run) {
    forall j, k | 0 <= j < k < |run.events| && Clock(run.events[j]).Some? && Clock(run.events[k]).Some? ::
      Clock(run.events[j]).value <= Clock(run.events[k]).value
  }

  /** The event is a request of slot `i` that is granted. */
  ghost predicate Grants(st: State, e: Event, i: Index) {
    e.RequestOnEvent? && e.slot == i && Verdict(st, i, e.now, e.maxDelta, e.jumped).Granted()
  }

  ghost predicate GrantAt(run: Run, k: nat, i: Index)
    requires IsRun(run) && k < |run.events|
  {
    Grants(run.states[k], run.events[k], i)
  }

  ghost predicate ReleaseAt(run: Run, k: nat, i: Index)
    requires IsRun(run) && k < |run.events|
  {
    run.states[k].slots.At(i).held && !run.states[k + 1].slots.At(i).held
  }

  // ----- Reaching a state -----

  ghost predicate NoLater(run: Run, now: int) {
    forall k | 0 <= k < |run.events| && Clock(run.events[k]).Some? :: Clock(run.events[k]).value <= now
  }

  /** By time `now` some run with a clock that never runs backwards ends in this state. */
  ghost predicate Reachable(st: State, now: int) {
    exists run :: IsRun(run) && Clocked(run) && NoLater(run, now) && run.states[|run.events|] == st
  }

  lemma ReachStart(readers: seq<Reader>, conservative: bool, sampling: bool, motion: bool)
    ensures Reachable(Initial(readers, conservative, sampling, motion), 0)
  {
    hide Initial;
    var run := Run([Initial(readers, conservative, sampling, motion)], []);
    assert IsRun(run) && Clocked(run) && NoLater(run, 0);
  }

  lemma ReachNext(st: State, before: int, e: Event, now: int)
    requires Reachable(st, before) && Allowed(st, e) && before <= now && Clock(e) == Some(now)
    ensures Reachable(Step(st, e), now)
  {
    hide Initial, Step, Allowed, Clock;
    var run :| IsRun(run) && Clocked(run) && NoLater(run, before) && run.states[|run.events|] == st;
    var longer := Run(run.states + [Step(st, e)], run.events + [e]);
    assert longer.states[0] == run.states[0];
    forall k | 0 <= k < |longer.events|
      ensures StepAt(longer, k)
    {
      if k < |run.events| {
        assert StepAt(run, k);
      }
    }
    assert IsRun(longer) && Clocked(longer) && NoLater(longer, now);
  }
}

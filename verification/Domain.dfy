/** The values the coordinator works on: pack frames, slots, episodes, sampling
    rounds, motion evidence, and the coordinator's whole state as one value.

    Times are integers in nanoseconds; 0 is Go's zero `time.Time`. Clock readings
    exceed every duration below, so integer subtraction decides each comparison
    as the saturating `Sub` does. */
module Domain {

  const MILLISECOND: int := 1_000_000
  const SECOND: int := 1_000_000_000

  const MAX_AGE: int := 10 * SECOND           // admissionMaxAge
  const MAX_SKEW: int := 3 * SECOND           // admissionMaxSkew
  const STABLE_TIME: int := 6 * SECOND        // admissionStableTime
  const MAX_CURRENT: int := 1000              // admissionMaxCurrent, mA
  const VOLTAGE_SPAN: int := 100              // admissionVoltageSpan, mV
  const ON_SETTLE: int := 10 * SECOND         // admissionOnSettle
  const COMMAND_TIME: int := 400 * MILLISECOND // BMSTimeCmd
  const PAIR_SKEW: int := 1 * SECOND          // samplingMaxSkew
  const FRAME_LIMIT: int := 2 * SECOND        // samplingFrameLimit
  const ROUND_DEADLINE: int := 10 * SECOND    // samplingDeadline
  const MOTION_MAX_AGE: int := 500 * MILLISECOND // stoppedMotionMaxAge
  const STOPPED_PAIR_AGE: int := 3 * SECOND   // stoppedPairMaxAge

  /** Every clock reading is later than this. */
  const CLOCK_FLOOR: int := 10 * SECOND

  datatype Option<+T> = None | Some(value: T)

  /** One of the two battery slots. */
  type Index = i: int | 0 <= i < 2

  /** A Go `[2]T` held by value. */
  datatype Pair<T> = Pair(first: T, second: T) {
    function At(i: Index): T {
      if i == 0 then first else second
    }

    function With(i: Index, x: T): Pair<T> {
      Pair(if i == 0 then x else first, if i == 0 then second else x)
    }
  }

  datatype PackState = Asleep | Idle | Active | Other(code: nat)

  /** The fields of a status frame that the coordinator reads. */
  datatype Frame = Frame(
    present: bool,
    voltage: nat,
    current: int,
    charge: nat,
    faultCode: nat,
    lowSoc: bool,
    state: PackState,
    serial: string,
    temperature: seq<int>,
    cycleCount: nat)

  const NO_FRAME := Frame(false, 0, 0, 0, 0, false, Other(0), "", [0, 0, 0, 0], 0)

  /** Whether anything a pack measures or counts moved between two frames. */
  predicate FrameChanged(a: Frame, b: Frame) {
    || a.voltage != b.voltage
    || a.current != b.current
    || a.charge != b.charge
    || a.state != b.state
    || a.temperature != b.temperature
    || a.cycleCount != b.cycleCount
  }

  predicate Inactive(state: PackState) {
    state.Idle? || state.Asleep?
  }

  /** A complete, powered reading: what `observeLocked` demands of the frame itself. */
  predicate Measured(data: Frame) {
    data.present && data.voltage > 0 && (data.state.Active? || Inactive(data.state))
  }

  datatype Vehicle =
    | Standby | Parked | HopOn | HopOnLearning | ReadyToDrive | WaitingSeatbox | ShuttingDown | Updating
    | WaitingHibernation | WaitingHibernationAdvanced | WaitingHibernationSeatbox | WaitingHibernationConfirm
    | OtherVehicle | Unlisted(name: string)

  predicate NonDriving(v: Vehicle) {
    match v
    case ReadyToDrive | OtherVehicle | Unlisted(_) => false
    case _ => true
  }

  function Distance(a: nat, b: nat): nat {
    if a > b then a - b else b - a
  }

  datatype Sample = Sample(data: Frame, at: int)

  datatype Slot = Slot(
    monitored: bool,
    eligible: bool,
    powerTracked: bool,
    uid: string,
    serial: string,
    absent: bool,
    observed: int,
    observedRound: nat,
    frame: Frame,
    haveFrame: bool,
    written: int,
    valid: bool,
    history: seq<Sample>,
    held: bool,
    active: bool,
    onAt: int,
    lastOnAt: int,
    offPending: bool,
    offAt: int,
    identityUncertain: bool,
    requiresAdmission: bool)
  {
    predicate Fresh(now: int) {
      valid && now - observed <= MAX_AGE
    }

    /** `absent` only counts while the reading that reported it is recent. */
    predicate KnownAbsent(now: int) {
      absent && now - observed <= MAX_AGE
    }

    predicate Depleted() {
      frame.faultCode != 0 || (frame.lowSoc && frame.charge == 0)
    }

    predicate Usable() {
      eligible && !Depleted()
    }

    /** Voltage number `k` of the window, the current frame coming last. */
    function WindowVoltage(k: nat): nat
      requires k <= |history|
    {
      if k < |history| then history[k].data.voltage else frame.voltage
    }

    /** Recent data, a window of at least three samples over six seconds, low load
        throughout and a voltage that stayed within one span. */
    ghost predicate Stable(now: int) {
      && Fresh(now)
      && LongEnough(history)
      && (forall k | 0 <= k < |history| :: -MAX_CURRENT <= history[k].data.current <= MAX_CURRENT)
      && (forall j, k | 0 <= j <= |history| && 0 <= k <= |history| ::
            WindowVoltage(j) - WindowVoltage(k) <= VOLTAGE_SPAN)
    }

    /** Positive OFF evidence for a slot whose newest frame is a valid inactive one. */
    predicate OffProven(now: int) {
      if offPending then
        offAt >= lastOnAt && now - offAt >= COMMAND_TIME && written > offAt
      else
        written > lastOnAt && ((active && now - lastOnAt >= COMMAND_TIME) || now - lastOnAt >= ON_SETTLE)
    }

    /** A new identity, when `changed`, keeps the unresolved power command and nothing else. */
    function Renamed(newUid: string, changed: bool): Slot {
      this.(uid := if changed then newUid else uid,
            serial := if changed then "" else serial,
            absent := absent && !changed,
            observed := if changed then 0 else observed,
            observedRound := if changed then 0 else observedRound,
            frame := if changed then NO_FRAME else frame,
            haveFrame := haveFrame && !changed,
            written := if changed then 0 else written,
            valid := valid && !changed,
            history := if changed then [] else history,
            active := active && !changed,
            identityUncertain := if changed then held else identityUncertain,
            requiresAdmission := requiresAdmission || (changed && (uid != "" || serial != "" || haveFrame)))
    }
  }

  const EMPTY_SLOT :=
    Slot(false, false, false, "", "", false, 0, 0, NO_FRAME, false, 0, false, [],
         false, false, 0, 0, false, 0, false, false)

  /** The length and span test of `stable`. */
  predicate LongEnough(h: seq<Sample>) {
    |h| >= 3 && h[|h| - 1].at - h[0].at >= STABLE_TIME
  }

  datatype Episode = Episode(survivor: Index, victim: Index, attempted: bool, handover: bool, offConfirmed: bool)

  datatype Acquisition = Acquisition(start: int, end: int, complete: int, data: Frame)

  const NO_ACQUISITION := Acquisition(0, 0, 0, NO_FRAME)

  datatype Round = Round(id: nat, openedAt: int, claimed: Pair<bool>, samples: Pair<Acquisition>)

  datatype Sampling = Sampling(
    enabled: bool,
    stopped: bool,
    next: nat,
    round: Option<Round>,
    pairedAt: int,
    pairedId: nat)

  datatype Motion = Motion(
    enabled: bool,
    at: int,
    since: int,
    stopped: bool,
    source: string,
    sequence: nat,
    lastCheck: int)

  /** An `engine-ecu:motion` message after decoding. `wellFormed` covers size, JSON,
      version, source format and the presence of `valid`. */
  datatype MotionReport = MotionReport(
    wellFormed: bool,
    source: string,
    sequence: nat,
    valid: bool,
    observedAt: Option<int>,
    rpm: Option<nat>,
    rawSpeed: Option<nat>,
    throttleOn: Option<bool>)
  {
    predicate Complete() {
      valid && observedAt.Some? && rpm.Some? && rawSpeed.Some? && throttleOn.Some?
    }

    predicate Stopped()
      requires Complete()
    {
      rpm.value == 0 && rawSpeed.value == 0 && !throttleOn.value
    }
  }

  datatype State = State(
    coordinated: bool,
    conservative: bool,
    isolation: Option<Episode>,
    vehicle: Vehicle,
    slots: Pair<Slot>,
    sampling: Sampling,
    motion: Motion,
    seatboxKnown: bool,
    seatboxClosed: bool)
  {
    function Put(i: Index, s: Slot): State {
      this.(slots := slots.With(i, s))
    }
  }

  /** Why `requestOn` answered as it did. */
  datatype Reason =
    | InactiveRole | WaitingForOff | IsolatingPack | WaitingForHandover | WaitingForTagPower
    | ServiceStopping | WaitingForNonDrive | WaitingForOn | WaitingForData | PackUnusable
    | WaitingForPeerData | WaitingForStationary | WaitingForQualifiedPeer | WaitingForPeerPower | PeerUnusable
    | WaitingForPair | WaitingForAlignment | VoltageTooFar | WaitingForStability
    | PrimarySelected | HigherVoltageSelected
    | MaintainingHandover | MaintainingSupply | Requalified | AwaitingOn | Admitted
  {
    predicate Granted() {
      MaintainingHandover? || MaintainingSupply? || Requalified? || AwaitingOn? || Admitted?
    }

    /** Grants that keep an established supply alive without qualifying it again. */
    predicate Maintenance() {
      MaintainingHandover? || MaintainingSupply?
    }
  }
}

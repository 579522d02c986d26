# Dual-battery admission: a verified model

Two battery slots share one supply rail. The coordinator `packAdmission` decides whether a slot
may be commanded ON and whether a running one must be forced OFF, from NFC readings that can be
lost, stale or from another battery, and from OFF commands that may fail. Every public method
holds one mutex and does no I/O, so each call is one atomic step; two reader goroutines, the
motion subscriber and the service interleave these steps arbitrarily. This project models that
coordinator and proves what its runs guarantee.

## How it is built

- `Domain.dfy`: frames, slots, episodes, rounds, motion evidence, decision reasons, constants.
- `Protocol.dfy`: each operation as a function from state to state.
- `Runs.dfy`: the events, the step function, start states, and runs of any length.
- `Invariant.dfy`, `Effects.dfy`: what every step keeps, and what each step does to a slot, to the
  episode and to the surroundings.
- `Fields.dfy`, `Decided.dfy`: the steps and the decisions told independently, from the fields alone. The
  operations say what each call writes; `FieldStep` says for each field which events write it.
  `GrantedExactly` and its companions are equivalences, so they bound each decision from both sides.
- `Window.dfy`, `Decisions.dfy`, `Reservation.dfy`, `Release.dfy`, `Episodes.dfy`, `Corrections.dfy`,
  `Continuity.dfy`, `MotionStream.dfy`, `Pairing.dfy`, `Rounds.dfy`, `History.dfy`, `ParallelPower.dfy`,
  `Policies.dfy`: the properties.
- `Disagreement.dfy`: one concrete run, evaluated step by step.
- `Coordinator.dfy`: the class `PackAdmission`, with the fields of the Go struct updated in place,
  its episode and round as separate objects, and its loops. Every method is proved to do exactly
  what the function of the same name says (`Model() == …(old(Model()), …)`), so each property of
  runs is a property of the object; `Serve` says so for any sequence of calls. The table lists the
  methods whose loops, objects or side effects make that more than a transcription; the others (roles, vehicle,
  seatbox, tags, failed and absent reads, read-only tests) carry the same kind of contract, and
  `Dispatch` depends on all of them.

A theorem about a history names its witnesses: the events at which a round was opened, claimed
and delivered (`Origin`), the two readings between which the payload moved (`PayloadMoved`), the
OFF that a release answers (`OffAnswered`).

## What is assumed

- Time is an integer number of nanoseconds and 0 is Go's zero `time.Time`. Clock readings are later
  than ten seconds (`CLOCK_FLOOR`), so that integer subtraction from zero decides each comparison
  as the saturating `Sub` does.
- `Allowed`: a slot becomes eligible, and is observed, only when it is monitored
  (`battery/service.go:43-53`, `battery/service.go:614`, `battery/service.go:664`), and a reader
  delivers at most once for a claim (`battery/nfc_operations.go:273-286`,
  `battery/nfc_operations.go:348-354`). Nothing else is assumed about the order or the content of calls.
- `Clocked`, a clock that never runs backwards from one step to a later one, is assumed only
  where a lemma says so: the code reads `now` before it takes the lock.
- A motion report arrives decoded; `wellFormed` stands for size, JSON, version, source format and
  a present `valid`. Whether wall and monotonic clock disagree by more than 5 ms is the boolean
  `jumped` of the call.

## What the proofs show about the code

- `shouldIsolate` and a following `requestOn` at the same instant and limit disagree in exactly one
  family, `FallbackHandover`: the first call itself creates a handover away from an eligible, already
  admitted battery of higher voltage that can no longer be used (the fallback of
  `battery/admission_isolation.go:55-60`), the second call cancels it again (lines 24-29 there) and
  maintains supply. `OffThenOnDisagree` is the equivalence, `DisagreementExists` a run that gets there.
  On one reconciled snapshot the two always agree (`OrderedOffIsDenied`).
- The branch for a stopped pair in ready-to-drive (`battery/admission.go:376-381`,
  `battery/stopped_admission.go:90-109`) cannot decide a request: the test at
  `battery/admission.go:356-358` denies first (`DrivingNeverJoins`). The documentation
  (`MOTION_IPC.md:64-69`) agrees with that outcome.
- With sampling on, "waiting for aligned readings" is never given as a reason (`AlignmentNeverDenied`).

## Model

| member | source | states |
|---|---|---|
| ParallelPower.ParallelPowerSafe | battery/admission.go:356-398 | In every run with sampling on, a request beside a held peer is granted, other than as maintenance, only in a known non-drive state, with the peer confirmed active and no OFF pending, on frames that both readers measured in one round that each had claimed, STATUS0 intervals spanning at most 1 s, pair age at most 10 s, voltages within the limit when it is nonzero; new reservations, requalifications and repeated unconfirmed ONs alike |
| ParallelPower.ReservationIsGrantBeside | battery/admission.go:436-442 | A request that turns a slot from not held to held beside a held peer is such a grant |
| ParallelPower.EvidenceBarrier | battery/sampling.go:71-83 | After any invalidating event (role, tag, absence, failed read, seatbox move, OFF, reservation, requalification, release, serial change, motion transition, vehicle shift, shutdown) every sample in either window and any pair comes from a round opened later, claimed and delivered by its reader |
| ParallelPower.ConservativeGrantEvidence | battery/admission.go:399-413 | A conservative grant beside a held peer, other than as maintenance, rests for both slots on a low-load window of at least 3 samples over at least 6 s, and every two voltages of the two windows are within the limit less its tenth (at most 100 mV) when the limit is nonzero; every sample was acquired in a round opened after any earlier point of paired mode without evidence |
| ParallelPower.InvalidatedIsBarren | battery/sampling.go:71-83 | In a run, every invalidating event in paired mode leads to such a point |
| ParallelPower.SampledInTime | battery/sampling.go:132-146 | With a nondecreasing clock those samples start no earlier than the invalidating event's own time |
| ParallelPower.InvalidatesBlanks | battery/sampling.go:71-83 | An invalidating event with sampling on leaves no round, no pair and two empty windows |
| ParallelPower.AlignmentNeverDenied | battery/admission.go:388-395 | With sampling on, in every reachable state a pair both slots show is aligned within 3 s, so the alignment denial never occurs |
| ParallelPower.DrivingNeverJoins | battery/admission.go:356-358 | Outside non-drive states and beside a held peer no request passes qualification, and neither the stationary nor the qualified-peer test is reached |
| ParallelPower.MovingNeverJoins | battery/stopped_admission.go:72-79 | In every run, no slot joins a held peer while the last word on motion is an accepted report of movement observed at most 500 ms ago |
| ParallelPower.StationaryDenialIsMovement | battery/admission.go:376-378 | Conversely, a request denied for want of a stationary vehicle is denied in a non-drive state, beside a held peer, because of such a report |
| Pairing.PairDelivered | battery/sampling.go:119-177 | Whatever pair a state has, after any point with no evidence: both samples come from one round opened since, each claimed before it was delivered, STATUS0 intervals spanning at most 1 s, and they are the frames the slots show |
| Pairing.SampleOrigin | battery/sampling.go:169-171 | In paired mode every window sample since a point with no evidence was delivered for a round opened, then claimed by that reader, since that point |
| Pairing.OpenedOnce | battery/sampling.go:55-57 | A round number names one opening in the whole run |
| Pairing.ClaimedOnce | battery/sampling.go:60-69 | A reader claims a round at most once in the whole run |
| Pairing.EvidenceOutcome | battery/sampling.go:41-69 | Every step keeps or drops evidence, opens a round, claims one, stores one timely sample, or completes a pair; nothing else adds evidence |
| Pairing.StaleMark | battery/sampling.go:128-136 | A delivery under the number of the round already paired ends the pair |
| Rounds.RoundsKeepComing | battery/sampling.go:41-58 | In every run, in paired mode and until shutdown, beginning a round while a slot is eligible leaves one in progress that is at most 10 s old, a new unclaimed one unless the last is in time |
| Rounds.OpensExactly | battery/sampling.go:44-57 | When a new round is opened |
| Rounds.ClaimedExactly | battery/sampling.go:60-69 | A claim is granted if and only if the round in progress is unclaimed by that reader and at most 10 s old |
| Rounds.ClaimWithin | battery/sampling.go:60-69 | In every run a claimed round was opened before, at most 10 s earlier |
| Rounds.DeliveredExactly | battery/sampling.go:128-168 | Which deliveries complete a pair, wait for their partner, or need none, told from the two samples, their order and their intervals |
| Rounds.DeliveryOutcome | battery/sampling.go:137-177 | A matching delivery makes the pair with its number and earliest start, a good one without partner is stored, every other first delivery ends round and pair |
| Rounds.LateDelivery | battery/sampling.go:132-136 | A delivery that is late, unclaimed, of another round, or that swaps or releases, ends round and pair |
| Rounds.WaitingExactly | battery/admission_demand.go:79-89 | When a slot counts as waiting for power |
| Rounds.PollExactly | battery/admission.go:482-498 | When the readers keep polling, with sampling and without |
| Reservation.ReservationSound | battery/admission.go:248-256 | A slot that was granted ON and is no longer held was released by a valid Idle or Asleep reading, with a payload change later than its last granted ON, at least 400 ms after it, or 10 s if ON was never confirmed and no OFF was pending |
| Reservation.PowerStep | battery/admission.go:152-205 | No tag swap, serial change, absence, failed read, role or seatbox event clears `held` or `offPending`; only a releasing reading does; ON and OFF times move only with a grant or an OFF command |
| Reservation.ReleaseStep | battery/admission.go:248-256 | A step that ends a reservation is a complete inactive reading with positive OFF evidence for that slot |
| Reservation.QualifiedGrantHasFreshEvidence | battery/admission.go:224-240 | Every grant that is not maintenance follows two readings of different payload made since the slot's latest tag report, absence or serial change, and the newest reading of the slot is complete and at most 10 s old |
| Reservation.PayloadChange | battery/admission.go:232-234 | A confirmed tag always has two differing readings in a row behind it with no tag report, absence or serial change in between or since; `written` is the time of the later one |
| Reservation.LastReading | battery/admission.go:235-237 | Valid data is the slot's newest reading, complete, at time `observed`, with nothing forgotten, no read failed and no seatbox moved since |
| Release.AnsweredOffReleases | battery/admission.go:248-263 | Conversely, once OFF is on record and still pending with no ON since, a complete inactive reading at least 400 ms later whose payload moved after the OFF releases the slot, and confirms the handover from it or ends the corrective episode |
| Release.SilentOffReleases | battery/admission.go:248-256 | Without a pending OFF, such a reading whose payload moved after every ON releases a confirmed slot 400 ms, and an unconfirmed one 10 s, after the last ON |
| Release.FirstOffRecorded | battery/admission.go:457-459 | The first OFF sent to a held slot after it was granted ON is put on record with its time |
| Release.RecordLasts | battery/admission.go:457-459 | While it is pending and no ON follows, repeated OFFs leave that record alone |
| Fields.FieldStep | battery/admission.go:91-463 | For every field of a slot, exactly which events write it and what they write, told from the event and the old fields, durations and vehicle states spelled out |
| Episodes.CorrectiveOffsExclusive | battery/admission_isolation.go:132-145 | After a corrective OFF succeeds on one slot it succeeds on the other only after the first slot was released, whatever happens in between |
| Episodes.HandoverOrder | battery/admission_isolation.go:117-128 | As long as an attempted handover has lasted, its target is granted ON, even by a request whose own review ends the episode, only after the victim answered an OFF that follows every ON granted to the victim up to that moment: a complete inactive reading at least 400 ms after the OFF, and a payload change after it |
| Episodes.ConfirmedVictimWaits | battery/admission.go:332-341 | While a confirmed handover lasts, its victim is granted nothing, not even a keepalive |
| Episodes.HandoverConfirmed | battery/admission.go:257-263 | A handover becomes confirmed only at a step that releases its victim with an OFF pending |
| Episodes.ReleaseAnswersOff | battery/admission.go:248-256 | A release while an OFF is pending answers an OFF with no later ON; a keepalive granted during a driving pause needs a new OFF first |
| Episodes.SwitchingOffStep | battery/admission_isolation.go:18-39 | An attempted episode outlives every step but its victim's release |
| Episodes.OffSource | battery/admission.go:451-463 | A pending OFF not older than the last ON was sent by a recorded command with no grant since |
| Continuity.DriveContinuity | battery/admission.go:338-351 | An eligible, confirmed, admitted supply with no OFF pending is granted every request, as maintenance, through any interleaving outside non-drive states without OFF attempt, identity change, role removal or releasing reading on it; an episode may be open unless it has attempted this slot's OFF or makes it wait for the other's |
| Continuity.PermissionNotInherited | battery/admission.go:55-59 | The first grant after a known UID or serial is replaced, after an absence or a report of the same tag in a state in which the vehicle cannot drive, or after the seatbox moved while the slot was no confirmed supply, passes the whole qualification path |
| Continuity.AdmissionStep | battery/admission.go:144-170 | Exactly these events demand admission, and exactly a grant lifts the demand |
| Continuity.SeatboxKnown | battery/admission.go:121-127 | In every run the seatbox counts as known exactly from its first report on |
| Continuity.SeatboxAsReported | battery/admission.go:128-132 | In every run the seatbox is as last reported |
| Continuity.UnconfirmedOnBounded | battery/admission.go:359-363 | With a nondecreasing clock an unconfirmed ON by the same identity has `onAt <= lastOnAt <= onAt + 10 s` in every reachable state |
| Continuity.LateRetryDenied | battery/admission.go:359-363 | An unconfirmed ON older than 10 s is never repeated, on any path |
| Continuity.OnBeforeNow | battery/admission.go:320-326 | With a nondecreasing clock `onAt <= lastOnAt` and neither is later than any event to come |
| Continuity.TrackedExactly | battery/admission.go:217-223 | In every run `powerTracked` holds exactly when some configured reader of the slot was enabled and active, the slot was later made eligible, or it was read as ACTIVE |
| Continuity.ConfiguredAllTracked | battery/admission.go:78-89 | After configuration alone it holds exactly when some reader entry for the slot, even an overridden one, was enabled and active |
| Invariant.StepKeepsInv | battery/admission.go:217-268 | Every allowed step keeps: active, offPending and identityUncertain imply held; uncertain implies not active; absent implies not held and not valid; eligible or held implies monitored and tracked; an unconfirmed episode keeps its victim held, with OFF pending once attempted; rounds and pairs are consistent with the slots |
| Invariant.ReachableInv | battery/admission.go:78-89 | Every state of every run, from every configuration, satisfies that invariant |
| Invariant.PairAlignment | battery/sampling.go:101-110 | Two timely samples spanning at most 1 s complete within 3 s of each other |
| Window.WindowRefinesLog | battery/admission.go:276-286 | For nondecreasing times the pruned window is the shortest suffix, since the last gap over 10 s, with at least 3 samples and 6 s span, or all of it when no suffix qualifies |
| Window.WindowDecidesAsLog | battery/admission.go:296-299 | Pruning never changes the outcome of the length and span test |
| Window.AppendHistory | battery/admission.go:276-286 | The loop that appends and prunes computes `Appended` |
| History.HistoryRefinesLog | battery/admission.go:276-299 | In every run with a nondecreasing clock a slot's window is the shortest suffix, since the last gap over 10 s, of the samples taken since it was last emptied that has at least 3 samples and 6 s span, or all of them when none does; the length and span test cannot tell them apart |
| History.HistoryIsPrunedLog | battery/admission.go:270-286 | In every run, with any clock, the window is what folding those samples gives |
| History.LogOrdered | battery/sampling.go:132-171 | With a nondecreasing clock those samples are in order of time, in paired mode and outside it, and none is later than the opening of the round in progress |
| History.WindowStep | battery/admission.go:270-286 | Which steps empty a slot's window and which add which sample: a usable frame outside paired mode, a pair's own half in it |
| MotionStream.StoppedWindowHasLog | battery/motion_ipc.go:37-75 | Whenever motion counts as stopped there are reports of one source with consecutive numbers, increasing observation times at most 500 ms apart, all stopped, first at `since`, last at `at`, with no other report or reset in between |
| MotionStream.MotionWindowStep | battery/stopped_admission.go:29-52 | A report extends the window only as its exact continuation; otherwise a window starts at this report or there is none |
| MotionStream.AcceptedExactly | battery/motion_ipc.go:37-75 | Exactly which reports are accepted, and that the window then carries the report's time and says whether it showed a stop |
| MotionStream.TurnsExactly | battery/stopped_admission.go:40-45 | Evidence is dropped exactly by an accepted report that starts a window or turns it round |
| MotionStream.MovementSource | battery/stopped_admission.go:29-52 | In every run a dated window that does not say stopped comes from the last report, an accepted one of movement |
| MotionStream.ShiftExactly | battery/admission.go:112-117 | A vehicle change counts exactly when it touches a state in which the vehicle may drive: ready-to-drive, other, or unlisted |
| MotionStream.FreshStopExactly | battery/stopped_admission.go:81-88 | Which stopped windows are fresh, and what a noticed clock jump does |
| Policies.StrictRefinesBaseline | battery/admission.go:318-443 | From any state with a held, monitored peer, what conservative mode grants baseline grants for the same reason, although only conservative mode creates handovers |
| Policies.OrderedOffIsDenied | battery/admission_isolation.go:103-112 | A slot the reconciled state orders off is not granted ON in that state |
| Policies.OffThenOnDisagree | battery/admission_isolation.go:18-76 | `shouldIsolate` true and then `requestOn` at the same instant and limit: granted if and only if the state was in the fallback family |
| Disagreement.DisagreementExists | battery/admission_isolation.go:55-60 | Some run with a nondecreasing clock ends in a state in which slot 0 is ordered off and the request that follows, at the same instant and limit, is granted |
| Disagreement.RoundPairs | battery/sampling.go:41-177 | In that run, opening, claiming and delivering one round on unchanged readings adds exactly one sample to each window and makes the pair |
| Policies.FirstSupplyExclusive | battery/admission.go:414-424 | From two waiting, usable batteries, any sequence of requests in any order, at any times and limits, grants only one slot: slot 0 in baseline, in conservative mode the higher voltage, then charge, then the lower index |
| Policies.WinnerAdmitted | battery/admission.go:414-424 | That slot's request is admitted when both readings are recent, the vehicle is non-drive or ready to drive, and the service is not stopping |
| Decisions.GrantKinds | battery/admission.go:318-443 | A grant is a paused handover's keepalive, a qualified supply's keepalive, or has passed the whole qualification path; which one is determined by the slot |
| Decisions.GrantDuringEpisode | battery/admission.go:332-344 | During an episode the target of a handover is granted nothing before OFF is confirmed, and an attempted victim only the paused keepalive |
| Decided.GrantedExactly | battery/admission.go:318-443 | A request is granted on the reconciled state if and only if the fields permit it: role, OFF, episode, identity, vehicle, motion, freshness, health, pair, limits, windows and the order of first supply, all spelled out |
| Decided.ReasonExplained | battery/admission.go:318-443 | Every one of the 26 reasons is true of the reconciled state for which it is given |
| Decided.CreatedExactly | battery/admission_isolation.go:40-76 | A review without an episode creates one if and only if a recent, unpending pair differs by more than the limit in a coordinated, parked vehicle and both supply (the kept one admitted), or the better one rests calmly; it keeps the higher voltage unless that battery cannot be used |
| Decided.EndedExactly | battery/admission_isolation.go:18-39 | When a review ends an episode: an unattempted one without limit or without point, or a confirmed handover whose target cannot take over |
| Decided.JustifiedExactly | battery/admission_isolation.go:87-101 | When the survivor's evidence justifies an OFF |
| Decided.PausedExactly | battery/admission_isolation.go:117-128 | When an attempted handover is paused |
| Decided.OrderedExactly | battery/admission_isolation.go:103-112 | When the reconciled state orders a slot off |
| Corrections.ReviewExactly | battery/admission_isolation.go:18-76 | The episode after a review, as an equivalence over the fields before it |
| Corrections.LowerVoltageIsolated | battery/admission_isolation.go:51-71 | Of two running, admitted, usable batteries that a current pair shows too far apart, the review orders off the lower voltage and not the higher |
| Corrections.CorrectedExactly | battery/admission_isolation.go:132-145 | A corrective OFF succeeds if and only if its slot is the victim of an episode that is still justified |
| Corrections.CorrectionLeavesSupply | battery/admission_isolation.go:87-101 | In every run, when a corrective OFF succeeds the vehicle cannot drive and the other slot's newest reading, complete, healthy, at most 10 s old and unspoiled, is ACTIVE for a held, confirmed, admitted supply, or inactive for the unreserved target of a handover; no OFF is pending on it |
| Corrections.FirstHandoverOff | battery/admission_isolation.go:98-98 | The first OFF of a handover further needs a pair of the last 10 s and calm windows of both |
| Effects.SlotStep | battery/admission.go:91-268 | What each of the 17 kinds of step does to a slot, apart from its window; all other steps leave it as it was |
| Effects.EpisodeStep | battery/admission_isolation.go:18-76 | Which steps create, mark, confirm or end an episode, and how |
| Coordinator.IsStable | battery/admission.go:296-309 | The minimum and maximum loop decides: recent data, long enough window, every load at most 1 A, every two voltages within 100 mV |
| Coordinator.CompareWindows | battery/admission.go:403-412 | The nested loop decides whether every two samples of the windows are within the tightened limit |
| Coordinator.PackAdmission.constructor | battery/admission.go:78-89 | Configuring any list of readers yields the start state of the runs |
| Coordinator.PackAdmission.ObserveFrame | battery/admission.go:217-274 | The in-place observation, with its early return, releases and episode changes, is the step `Protocol.ObserveFrame` |
| Coordinator.PackAdmission.RequestOn | battery/admission.go:318-443 | New state and reason of a request are those of `Protocol.RequestOn` and `Protocol.Verdict`; it is allowed if and only if the fields of the reconciled state permit it, and its reason is true of that state |
| Coordinator.PackAdmission.Qualify | battery/admission.go:352-442 | The qualification branches in order decide as specified, and the stopped-motion check inside them never changes motion evidence |
| Coordinator.PackAdmission.OffAttempt | battery/admission.go:451-463 | An OFF marks its episode, is recorded once per ON, and drops the evidence |
| Coordinator.PackAdmission.Reconcile | battery/admission_isolation.go:18-76 | An existing episode is kept or ended, a missing one is created from a current mismatched pair; nothing else changes |
| Coordinator.PackAdmission.ShouldIsolate | battery/admission_isolation.go:103-112 | The new state is the reconciled one; true if and only if the slot is the victim of its unconfirmed, attempted or justified, unpaused episode |
| Coordinator.PackAdmission.IsolationOffAttempt | battery/admission_isolation.go:132-145 | Succeeds if and only if the slot is the victim of an episode its survivor's evidence still justifies, and otherwise changes nothing |
| Coordinator.PackAdmission.BeginRound | battery/sampling.go:41-58 | Opens a new number when no round is in time and polling is needed; an overdue round is cancelled either way |
| Coordinator.PackAdmission.ClaimRound | battery/sampling.go:60-69 | Hands out the open round's number once to each reader, within its deadline, and otherwise 0 |
| Coordinator.PackAdmission.ObserveAcquisition | battery/sampling.go:119-177 | A delivery tracks its frame, then stores, pairs or cancels as specified, and asks for a new decision exactly when specified |
| Coordinator.PackAdmission.ReceiveMotion | battery/motion_ipc.go:37-75 | A decoded report changes the motion window, and drops the evidence on a transition, as specified; it is accepted exactly when a last report time remains |
| Coordinator.PackAdmission.Clone | battery/admission_diagnostics.go:11-26 | The copy has the original's state apart from the seatbox fields and shares no object with it |
| Coordinator.PackAdmission.PreviewOn | battery/admission_diagnostics.go:28-38 | A preview modifies no existing object; its decision is that of the supposed state, and without joining and in the live mode exactly the live decision and reason |
| Coordinator.PromptMeaning | battery/sampling.go:119-177 | A delivery asks for a new decision only while a slot waits unpowered, and then always when it completes a pair or first confirms its tag |
| Coordinator.PromptExactly | battery/sampling.go:119-177 | A delivery asks for a new decision if and only if a slot then waits unpowered and it first confirms its tag, completes a pair, or is a good delivery that needs no partner |
| Coordinator.VerdictIgnoresSeatbox | battery/admission_diagnostics.go:11-14 | The seatbox fields the copy leaves unset never matter to a decision |
| Coordinator.PreviewSupposes | battery/admission_diagnostics.go:28-36 | A preview supposes its mode and, when joining, a slot without power, and nothing else |
| Coordinator.JoiningIsAdmission | battery/admission_diagnostics.go:33-36 | A joining preview never answers with the permission of a supply that is already on |
| Coordinator.StrictPreviewImpliesBaseline | battery/admission_diagnostics.go:65-68 | Of the two joining previews beside a held, monitored peer, strict grants only what baseline grants, for the same reason |
| Coordinator.PackAdmission.Dispatch | battery/admission.go:61-76 | Every call is the step of its event and keeps the invariant when the call is allowed; new objects belong to the coordinator alone |
| Coordinator.Serve | battery/admission.go:61-76 | After any permitted sequence of calls on a new coordinator the object is in the last state of the corresponding run, and satisfies the invariant |
| Coordinator.TraceIsRun | battery/admission.go:61-76 | Any permitted sequence of calls is a run |

## Left out

- `battery/fsm`: the readers' state machine rests on an external library that is not part of this model.
- `battery/nfc_operations.go`, `battery/discovery.go`, `battery/inhibitor.go`, `battery/battery_commands.go`: hardware access, sockets and retries appear only as arbitrary calls into the coordinator.
- `battery/service.go`: Redis subscriptions, settings and logging; only the configuration facts cited above are used.
- `battery/fault.go`: debouncing by real timers and publication.
- JSON and hex decoding of motion messages and the arithmetic of `motionClockJump`: both arrive decided, as `wellFormed` and `jumped`.
- `samplingReport`, diagnostic strings and log keys: reasons are kept only as an enumeration, so the sample stored by `failAcquisition` matters to no contract.
- `observe` and `invalidate` are `ObserveFrame` and `FailAcquisition`; `observeMotion` and `invalidateMotion` serve the repository's own tests and are modelled only inside `ReceiveMotion`; `waiting` and `roundInProgress` are one-line reads.
- The mutex itself: each method is one atomic step, which is what the mutex provides.
- Round numbers and motion sequence numbers do not wrap at 64 bits.
- Histories are sequences, so sharing of a slice's backing array is not expressible; sharing of the slot array, the round and the episode is.
- What a battery physically does: the theorems speak of what readings proved.

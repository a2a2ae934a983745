# SkyWatch controller: verified model

SkyWatch fuses aircraft observations (ADS-B over USB, a BLE simulator, synthetic test aircraft) on a
microcontroller, filters each aircraft, and warns of pairwise conflicts. This project models the
firmware's own algorithms in Dafny and proves what they keep, step by step and over whole runs.
`dafny verify dfyconfig.toml` checks everything.

## How it is laid out

| module | what it holds |
|---|---|
| `Basics`, `Algebra` | optional values, 32-bit counters, the longitude scale; a few facts of real arithmetic |
| `Matrices`, `KalmanSpec`, `KalmanNumbers`, `KalmanRuns`, `Kalman` | 4x4 array loops; the filter they compute and the two two-state filters it amounts to; its entries in metres and seconds; whole runs; the mutable record |
| `AircraftDbSpec`, `AircraftDbRuns`, `AircraftDb` | the table as a value and as a map; whole runs; pool, used flags and linked list |
| `Approach`, `PairLevels`, `LevelSymmetry` | closest approach, classification, vertical gate, crash test; what each level means; when it depends on scan order |
| `TrackerSpec`, `TrackerRuns`, `TrackerEntries`, `PairFrames`, `Encounters` | one detector tick as a value; the frame protocol over runs; one pair's entry and frames across a tick; runs cut where a ghost start drops a pair |
| `Outgoing`, `CrashLock`, `Terminal`, `Alerts`, `Picker`, `Diversions` | what each frame follows and names; the crash lock; the terminal frame; the send throttle; how a diversion is picked; what the simulator is told and what the JSON frames show |
| `Detector`, `Snapshot`, `Traces` | the mutable detector; what it copies from the table, and both running together; concrete snapshots on which it departs from its comments |
| `UsbRx`, `Lines` | the receive interrupt and reader thread in every interleaving; line reassembly |
| `Kinematics`, `Missile`, `Ghost`, `Appointment` | angles and dead reckoning; the pursuing and the head-on test aircraft; whether the latter meets its target as ordered |
| `Frames`, `WarningLink`, `Bridge` | checksum and hexadecimal text; both ends of the warning link; position frames into records |

Code that mutates state is a class with the source's own fields and loops. Each method is proved equal
to a function of the old state, and the theorems are about those functions.

Conventions. `double` is `real`; counters are 32-bit and wrap (`Inc32`, `Add32`). The longitude scale is
any function that is never zero; square root, sine, cosine and `atan2` are parameters constrained only
by the laws used (`Geo.Sound`, `Trig.Sound`). Uptime is an `int` in milliseconds, read from a parameter.
Identifiers are strings of at most six characters without NUL. An infinite time to closest approach is
`None`. A frame leaving the detector is a datatype value appended to a log.

## Where the code and its comments differ

The model follows the code in each case.

- The crash lock is documented to hold "regardless of subsequent geometry"; the code tests for CLEAR
  first, so one CLEAR classification ends it (`CrashLock.LockHolds`, `Traces.LockBreaks`; repaired in
  `CrashLock.LockFirstHolds`).
- The BLE diversion is meant to be the cached one. It can differ from it in two ways:
  `tracked_remove` does not shift `s_pair_diversion`, so after a removal a pair can send another pair's
  (`Traces.DiversionsDisagree`); and a pair that left CLEAR without a simulator side has no cached
  diversion, yet once it has such a side its slot is sent (`Traces.LateSimulator`). `Diversions.RunVoice`
  gives the exact condition over runs; shifting both arrays removes the first cause only
  (`Diversions.RunBothVoice`).
- Such a pair also has a time stamp of zero rather than "never", so in the first three seconds of uptime
  its first send waits (`Alerts.SendFresh`, `Traces.SilentSimulator`).
- CRASH is documented as terminal, firing once per pair. It fires on every way to CRASH: after a CLEAR,
  within one encounter once the lock has run out and the pair was sighted lower, and on every tick for a
  pair the full table has no room for (`Terminal.OnceExactly`, `AgainExactly`, `Traces.CrashTwice`).
- The picker is documented to climb when head-on and to fall back to RTB or HOLD. Its climbing sector is
  more than 160 degrees off the course, behind; a threat nearly ahead gets a turn; RTB and HOLD are never
  picked (`Picker.PickMeans`).
- An overlong line is meant to be dropped up to the next newline; its tail is delivered unless its
  length is a multiple of 512 (`Lines.ResyncExactly`).
- The crash test scales longitude at the first row's latitude, the approach at the midpoint; so the level
  depends on row order wherever two latitudes within 300 m have scales of different size
  (`LevelSymmetry.SymmetricExactly`), and a ghost placed with the target's scale meets exactly only under
  the condition of `Appointment.GhostAppointment` (missed in `Appointment.EastboundMissed`).
- A manual crash trigger is meant to name the aircraft that is not the simulator; it does only when the
  two identifiers are given in descending order (`Detector.TriggerNamesOther`).
- The prediction is described as 10 s ahead; the published horizon is 60 s.
- Time thresholds are documented as "at most"; the code compares strictly. Zero relative velocity is
  documented as time 0; the code reports an infinite time, not diverging.
- Diversions are documented as picked on WARNING transitions; the code picks one whenever a pair leaves
  CLEAR, at any level, and sends it again every three seconds.
- Test-aircraft identifiers are not hexadecimal, so the simulator shows them as other aircraft
  (`Frames.TestAircraftMisshown`).

## Model

| member | source | states |
|---|---|---|
| Matrices.MulInto | controller/src/kalman/src/kalman.c:37-47 | the triple loop leaves the matrix product of its inputs in `out` |
| Matrices.TransposeInto | controller/src/kalman/src/kalman.c:49-54 | the double loop leaves the transpose in `out` |
| Matrices.AddInto | controller/src/kalman/src/kalman.c:56-60 | the loop leaves the entrywise sum in `out`, also when `out` is a third array |
| Matrices.MulVecInto | controller/src/kalman/src/kalman.c:62-69 | the double loop leaves the matrix-vector product in `out` |
| Matrices.WeaveMul | controller/src/kalman/src/kalman.c:37-47 | a 4x4 product of matrices that keep the two axes apart is the two 2x2 products, woven |
| KalmanSpec.InitRefines | controller/src/kalman/src/kalman.c:73-92 | an initialised filter is two sound two-state filters, one per axis |
| KalmanSpec.PredictRefines | controller/src/kalman/src/kalman.c:94-134 | the 4x4 predict equals the two axes' own predicts; they meet only in the longitude scale |
| KalmanSpec.UpdateRefines | controller/src/kalman/src/kalman.c:136-203 | on sound axes the determinant guard is positive and the 4x4 update equals the two axes' own updates, counting one |
| KalmanSpec.PredictRankOne | controller/src/kalman/src/kalman.c:117-133 | predict adds the rank-one term q2 w w' with w = (dt^2/2, dt) to the transported covariance |
| KalmanSpec.PredictDet | controller/src/kalman/src/kalman.c:111-133 | predict never lowers an axis' determinant and keeps it positive definite, for any dt |
| KalmanSpec.UpdateDet | controller/src/kalman/src/kalman.c:161-200 | update scales the determinant by R/(p+R); no variance grows and position variance falls below p and R |
| KalmanSpec.UpdateBetween | controller/src/kalman/src/kalman.c:157-188 | the posterior position lies between prior and measurement, strictly if they differ |
| KalmanRuns.RunRefines | controller/src/kalman/src/kalman.c:73-203 | over every run the array filter is exactly two independent two-state filters |
| KalmanRuns.CovarianceSound | controller/src/kalman/src/kalman.c:73-203 | after every run: P symmetric, positive definite, cross-axis entries zero, innovation determinant positive, counter = number of updates mod 2^32 |
| KalmanRuns.UpdateAfterRun | controller/src/kalman/src/kalman.c:161-200 | after every run the updated covariance (I-KH)P equals the Joseph form and P - K S K' |
| KalmanRuns.MeasurementAfterRun | controller/src/kalman/src/kalman.c:151-200 | after every run a measurement shrinks variances, scales each block determinant by R/(p+R) and moves each position between prior and fix |
| KalmanRuns.PredictAfterRun | controller/src/kalman/src/kalman.c:94-134 | after every run predict is F P F' plus a rank-one term per axis and lowers no block determinant |
| KalmanRuns.AheadIsPredict | controller/src/kalman/src/kalman.c:205-214 | the extrapolated position is where `kalman_predict` would move the state |
| KalmanNumbers.StartsAt | controller/src/kalman/src/kalman.c:73-92 | a new filter stands where it was put, at rest, with 100 m and 50 m/s in degrees squared on the diagonal and nothing else |
| KalmanNumbers.FirstFix | controller/src/kalman/src/kalman.c:136-203 | the first fix of noise r metres moves latitude 10000/(10000 + r^2) of the way; longitude by the same shares with r counted in degrees at the latitude; what is left of each variance |
| KalmanNumbers.PredictEntries | controller/src/kalman/src/kalman.c:94-134 | predict entry by entry from any covariance: positions move at the velocities, each axis grows by its own motion and by what q m/s^2 does in dt, in its own degrees |
| KalmanNumbers.GainSolves | controller/src/kalman/src/kalman.c:157-184 | for any covariance, cross terms included, the closed-form gain solves K S = P H' |
| KalmanNumbers.BlankStays | controller/src/kalman/src/kalman.c:94-214 | a filter never started is left alone and extrapolates to zeros |
| Kalman.KalmanState.Init | controller/src/kalman/src/kalman.c:73-92 | the record becomes the initial state of the specification |
| Kalman.KalmanState.FillTransition | controller/src/kalman/src/kalman.c:98-104 | fills the constant-velocity transition |
| Kalman.KalmanState.FillNoise | controller/src/kalman/src/kalman.c:117-131 | fills the process noise of both axes |
| Kalman.KalmanState.Predict | controller/src/kalman/src/kalman.c:94-134 | the in-place predict is the specified one, nothing else changed |
| Kalman.KalmanState.FillGain | controller/src/kalman/src/kalman.c:161-184 | the loop fills the 4x2 gain of the closed-form inverse |
| Kalman.KalmanState.AddGain | controller/src/kalman/src/kalman.c:186-188 | x += K y in place |
| Kalman.KalmanState.FillResidual | controller/src/kalman/src/kalman.c:190-197 | the two loops build I - K H |
| Kalman.KalmanState.ApplyGain | controller/src/kalman/src/kalman.c:176-200 | state moved by K y, covariance multiplied by I - K H |
| Kalman.KalmanState.Update | controller/src/kalman/src/kalman.c:136-203 | the in-place update is the specified one, early returns included |
| Kalman.KalmanState.Ahead | controller/src/kalman/src/kalman.c:205-214 | returns the extrapolated position, or zeros before initialisation |
| AircraftDbSpec.UpsertIsMapUpdate | controller/src/aircraft_db/src/aircraft_db.c:99-150 | upsert is map update; -EINVAL exactly on an empty key, -ENOMEM exactly when the key is absent and 32 rows live, changing only `pool_full` |
| AircraftDbSpec.KeepLive | controller/src/aircraft_db/src/aircraft_db.c:238-257 | the rows kept are exactly the live ones, keys still distinct |
| AircraftDbSpec.ReapKeepsLive | controller/src/aircraft_db/src/aircraft_db.c:238-257 | a reaper pass restricts the map to entries of age at most 10000 ms and keeps the counters' law |
| AircraftDbSpec.LookupReturns | controller/src/aircraft_db/src/aircraft_db.c:99-169 | a lookup after an accepted upsert returns the observation itself, prediction fields aside |
| AircraftDbRuns.RunWellFormed | controller/src/aircraft_db/src/aircraft_db.c:99-185 | over every run of upserts, passes and clears: capacity, distinct non-empty keys, inserts - stale_evicts = length |
| AircraftDbRuns.RunFaithful | controller/src/aircraft_db/src/aircraft_db.c:111-144 | each row's filter has fused exactly the upserts since insertion; the prediction is published from the third on and equals the filter's own |
| AircraftDbRuns.RunHealthy | controller/src/aircraft_db/src/aircraft_db.c:111-144 | every row of every run holds a sound filter whose early return cannot fire |
| AircraftDbRuns.InsertStep | controller/src/aircraft_db/src/aircraft_db.c:121-136 | a new row's filter stands at the observation, at rest, with that fix counted |
| AircraftDbRuns.RefreshStep | controller/src/aircraft_db/src/aircraft_db.c:111-120 | a refresh predicts over the time since the last, one millisecond if the clock has not moved on, then fuses the fix |
| AircraftDbRuns.UpsertsCounted | controller/src/aircraft_db/src/aircraft_db.c:99-150 | over every run each row's filter has fused as many measurements as upserts of its key were taken since it was last inserted; where those came at increasing times, it has been predicted over exactly the time from the first to the last |
| AircraftDbRuns.PublishedFromThird | controller/src/aircraft_db/src/aircraft_db.c:111-144 | so the prediction is published exactly from the third such upsert on, as far as a 32-bit count goes |
| AircraftDbRuns.SeenSinceReap | controller/src/aircraft_db/src/aircraft_db.c:238-270 | after a pass nothing older than 10000 ms at that pass remains |
| AircraftDbRuns.PresentExactly | controller/src/aircraft_db/src/aircraft_db.c:99-257 | over every run, however timed: a key is in the table exactly when an accepted upsert of it has since seen no clear and no pass more than 10000 ms later; its row bears that upsert's time |
| AircraftDbRuns.StaleBound | controller/src/aircraft_db/src/aircraft_db.c:238-270 | with passes at most 2000 ms apart every entry had an accepted upsert within the last 12000 ms, and one upserted within 10000 ms and not cleared is there |
| AircraftDb.Pigeonhole | controller/src/aircraft_db/src/aircraft_db.c:43-53 | distinct slots below n number at most n, and n only if every slot is among them: why a failed allocation means 32 live entries |
| AircraftDb.AppendChain | controller/src/aircraft_db/src/aircraft_db.c:132-132 | `sys_slist_append` extends the chain of links by the new slot |
| AircraftDb.UnlinkChain | controller/src/aircraft_db/src/aircraft_db.c:244-255 | `sys_slist_remove` with the predecessor at hand takes exactly that slot out of the chain |
| AircraftDb.AircraftDb.constructor | controller/src/aircraft_db/src/aircraft_db.c:86-92 | an empty table |
| AircraftDb.AircraftDb.FindLocked | controller/src/aircraft_db/src/aircraft_db.c:70-81 | the list walk returns the slot of the key's row, or NULL |
| AircraftDb.AircraftDb.PoolAlloc | controller/src/aircraft_db/src/aircraft_db.c:43-53 | a free slot, zeroed and marked used; NULL only if all 32 are used |
| AircraftDb.AircraftDb.PoolFree | controller/src/aircraft_db/src/aircraft_db.c:58-66 | exactly the given slot becomes free |
| AircraftDb.AircraftDb.Append | controller/src/aircraft_db/src/aircraft_db.c:132-132 | the slot joins the list last; no record changes |
| AircraftDb.AircraftDb.Unlink | controller/src/aircraft_db/src/aircraft_db.c:244-255 | the slot leaves the list; no record changes |
| AircraftDb.AircraftDb.UpsertRecord | controller/src/aircraft_db/src/aircraft_db.c:99-150 | pool, list, filters and counters together refine the specified upsert |
| AircraftDb.AircraftDb.UpdateEntry | controller/src/aircraft_db/src/aircraft_db.c:111-120 | a known aircraft: record, time and filter of its own row only |
| AircraftDb.AircraftDb.InsertEntry | controller/src/aircraft_db/src/aircraft_db.c:121-136 | a new aircraft: allocate, start its filter, append; or -ENOMEM |
| AircraftDb.AircraftDb.PublishEntry | controller/src/aircraft_db/src/aircraft_db.c:140-144 | writes the extrapolation once the filter has three measurements |
| AircraftDb.AircraftDb.Lookup | controller/src/aircraft_db/src/aircraft_db.c:154-169 | the record of the key, or -ENOENT |
| AircraftDb.AircraftDb.Count | controller/src/aircraft_db/src/aircraft_db.c:189-199 | the number of rows |
| AircraftDb.AircraftDb.Clear | controller/src/aircraft_db/src/aircraft_db.c:173-185 | empty list, all slots free, counters zero |
| AircraftDb.AircraftDb.Evict | controller/src/aircraft_db/src/aircraft_db.c:244-252 | unlinks and frees one entry and counts it, keeping slots and list in bijection |
| AircraftDb.AircraftDb.ReapVisit | controller/src/aircraft_db/src/aircraft_db.c:241-256 | one turn of the loop: unlinked if stale, else stepped over with `prev` moved on |
| AircraftDb.AircraftDb.ReapLocked | controller/src/aircraft_db/src/aircraft_db.c:238-257 | unlinking while iterating is the specified filter, in order |
| Approach.SquareMinimal | controller/src/collision/src/collision.c:241-253 | the squared separation is least at t*, and at the start when t* is not ahead |
| Approach.ApproachOptimal | controller/src/collision/src/collision.c:216-254 | the reported separation is at most that of every t >= 0 and is attained at the reported time (now, when that is infinite) |
| Approach.ClosestUnique | controller/src/collision/src/collision.c:241-253 | a pair in relative motion comes closest at exactly one moment ahead, the computed one |
| Approach.ClassifyMeans | controller/src/collision/src/collision.c:256-270 | WARNING means it will come closest within 30 s and 500 m, ADVISORY within 60 s and 1000 m but not that, for pairs in relative motion only |
| Approach.ApproachSymmetric | controller/src/collision/src/collision.c:216-270 | swapping the aircraft changes neither the approach nor its classification |
| PairLevels.SeparationIs | controller/src/collision/src/collision.c:216-254 | the separation t seconds ahead is that of two points in straight motion in metres, longitude scaled at the latitude midway |
| PairLevels.ApproachIsMeeting | controller/src/collision/src/collision.c:216-254 | the approach record field by field: the meeting ahead, or diverging from now, or no relative motion; altitude difference where both are known |
| PairLevels.LevelMeans | controller/src/collision/src/collision.c:521-576 | when a pair is CRASH, WARNING or ADVISORY, each as an if-and-only-if on where the two are, how they move and how high they fly, 328 ft and 1000 ft gates included |
| LevelSymmetry.SymmetricExactly | controller/src/collision/src/collision.c:520-576 | for two latitudes, the level of every pair there is the same in both scan orders if and only if the longitude scales agree in size or the latitudes are 300 m or more apart |
| LevelSymmetry.FailingPair | controller/src/collision/src/collision.c:555-576 | otherwise some pair there is CRASH one way round and WARNING the other, for every scale |
| TrackerSpec.PairKeyUnordered | controller/src/collision/src/collision.c:274-277 | keys are ordered and equal exactly for the same unordered pair |
| TrackerSpec.FoldTable | controller/src/collision/src/collision.c:514-631 | after the scan: the old entries in place, then the first new non-CLEAR pairs that fit, marks included |
| TrackerSpec.SweepIsFilter | controller/src/collision/src/collision.c:730-739 | removing while walking backwards leaves exactly the seen entries in order and emits one CLEAR per other |
| TrackerSpec.TickTable | controller/src/collision/src/collision.c:512-739 | the table after a tick in closed form: old entries still non-CLEAR in order, then the first (32 - old size) newcomers in scan order |
| TrackerSpec.TickKeepsTable | controller/src/collision/src/collision.c:496-748 | keys stay sorted and distinct, no tracked entry is at CLEAR, at most 32 |
| TrackerRuns.RunKeepsTable | controller/src/collision/src/collision.c:496-748 | the same over every run, ghost restarts included |
| TrackerRuns.TouchFrames | controller/src/collision/src/collision.c:611-726 | the frames of one sighting open with one JSON frame and hold no other |
| TrackerRuns.RunProtocol | controller/src/collision/src/collision.c:496-748 | per pair the frames are a prefix of (non-CLEAR+ CLEAR)*; tracked implies open, and equals open for every pair no ghost start dropped and no manual trigger named |
| Encounters.RunOpen | controller/src/collision/src/collision.c:496-748 | over every run whatever: an encounter is open exactly when the pair is tracked, or a ghost start dropped it or a manual trigger reported it and it has not been tracked since |
| TrackerRuns.ClearCloses | controller/src/collision/src/collision.c:730-739 | every CLEAR frame directly follows a non-CLEAR one of its pair: never first, never repeated |
| TrackerRuns.DropGhostKeeps | controller/src/collision/src/collision.c:948-963 | a ghost restart keeps the table well formed, leaves every entry not naming the ghost as it is and drops those that do |
| TrackerEntries.SweepEntry | controller/src/collision/src/collision.c:730-739 | one pair across the sweep: kept silently if seen, else one CLEAR and gone |
| TrackerEntries.TickEntry | controller/src/collision/src/collision.c:578-739 | one pair across a tick: stays exactly if sighted non-CLEAR, touched unless locked; enters exactly if it found room |
| CrashLock.TransitionArmsLock | controller/src/collision/src/collision.c:697-710 | entering CRASH leaves the pair at CRASH, locked until 15000 ms later |
| CrashLock.LockedTick | controller/src/collision/src/collision.c:582-606 | a tick inside the lock: unchanged and frameless if classified non-CLEAR, else one CLEAR frame and dropped |
| CrashLock.LockHolds | controller/src/collision/src/collision.c:582-606 | through the lock window the pair stays locked if and only if every tick classifies it non-CLEAR; then it gets no frame |
| CrashLock.MatchedVelocitiesAreClear | controller/src/collision/src/collision.c:241-258 | equal velocities are CLEAR at any distance |
| Traces.LockBreaks | controller/src/collision/src/collision.c:582-606 | two snapshots, for every sound geometry: a pair that crashes and stops is CLEARed and dropped on the next tick, inside its lock |
| CrashLock.LockFirstHolds | controller/src/collision/src/collision.c:588-606 | with the lock tested before CLEAR it holds on every tick that scans the pair, at any level |
| PairFrames.TickEvents | controller/src/collision/src/collision.c:578-739 | the frames one pair gets from a tick in closed form, with the diversion of its slot |
| Outgoing.RunPaired | controller/src/collision/src/collision.c:665-691 | over every run each diversion frame directly follows its pair's JSON frame and is directly followed by a warning frame exactly when that says WARNING or CRASH; there are no other warning frames |
| Outgoing.TickSays | controller/src/collision/src/collision.c:611-726 | what a tick sends about a pair and whom it names: diversion, warning, terminal frame, and the calling off of missile or ghost, each exactly when |
| Outgoing.TickFlies | controller/src/collision/src/collision.c:693-726 | a ghost flies on over a tick exactly if no frame of it called it off |
| Outgoing.RunFlies | controller/src/collision/src/collision.c:948-1060 | over every run a ghost flies exactly if it was started and nothing has grounded it since |
| Encounters.TickLately | controller/src/collision/src/collision.c:578-739 | the same for what the log holds of the pair from any place on |
| Alerts.TickThrottle | controller/src/collision/src/collision.c:665-691 | one tick's effect on the encounter's last send, for every pair, in the log from any place on |
| Alerts.RunThrottle | controller/src/collision/src/collision.c:665-691 | over every run, since a ghost start last dropped the pair if one did: the stored time stamp is the time of the encounter's last send, and zero if it had none |
| Alerts.SendsThrottled | controller/src/collision/src/collision.c:665-691 | over every run two sends of one encounter, the pair not dropped in between, are more than 3000 ms apart |
| Alerts.SendFresh | controller/src/collision/src/collision.c:672-690 | over every run: after a tick that processes a pair unlocked with a simulator side its last send in the log is at most 3000 ms old if and only if the pair is new, or had a send before, or the uptime is past 3000 ms |
| Traces.SilentSimulator | controller/src/collision/src/collision.c:672-690 | two snapshots in the first 3000 ms of uptime, for every sound geometry: a warning pair gains a simulator side and is sent nothing |
| Terminal.CrashesAreEdges | controller/src/collision/src/collision.c:693-704 | over every run a pair gets one terminal CRASH frame per action that brings it to CRASH, tracked or not, or triggers it by hand |
| Terminal.OnceExactly | controller/src/collision/src/collision.c:693-710 | so it fires at most once for the pair if and only if no two actions of the run do |
| Terminal.AgainExactly | controller/src/collision/src/collision.c:578-710 | a pair that stays tracked comes to CRASH again exactly when it is sighted at CRASH after its 15000 ms lock and some tick after the lock sighted it lower |
| Traces.CrashTwice | controller/src/collision/src/collision.c:578-710 | three snapshots, for every sound geometry: two terminal frames for one pair, once with a CLEAR in between and once within one encounter |
| Diversions.SlotLanded | controller/src/collision/src/collision.c:290-297 | the slot of a tracked pair holds what it held when the pair last moved into it |
| Diversions.RunVoice | controller/src/collision/src/collision.c:611-690 | over every run without manual triggers of the pair, since a ghost start last dropped it: JSON frames carry one diversion per encounter; BLE frames carry that one if and only if no tick sends for a pair without one or from a slot holding another |
| Diversions.JsonDiversionFixed | controller/src/collision/src/collision.c:647-663 | any two JSON frames of one encounter after its first, the pair not dropped in between, carry the same diversion |
| Diversions.BleIsJson | controller/src/collision/src/collision.c:652-690 | where no tick misspeaks, every BLE diversion frame carries what each JSON frame of its encounter after the first carries |
| Diversions.StepCoherent | controller/src/collision/src/collision.c:611-663 | a scanned pair leaves every slot with the diversion of the pair in it |
| Diversions.SweepCoherent | controller/src/collision/src/collision.c:290-297 | that survives removal if and only if every moved entry finds its own diversion in the slot it moves into |
| Diversions.RunBothCoherent | controller/src/collision/src/collision.c:290-297 | with both arrays shifted slots stay coherent over every run, and each tick's table and frames are as before |
| Diversions.RunBothVoice | controller/src/collision/src/collision.c:639-690 | with both shifted, BLE and JSON agree over a run if and only if no tick sends for a pair whose encounter began without a simulator side |
| Traces.DiversionsDisagree | controller/src/collision/src/collision.c:290-297 | three snapshots of three aircraft, for every sound geometry and trigonometry: JSON says CLIMB, BLE sends the DESCEND picked against another aircraft |
| Traces.LateSimulator | controller/src/collision/src/collision.c:639-690 | two snapshots of one pair that becomes a simulator pair: BLE sends a diversion JSON does not show, arrays shifted or not |
| Picker.Settle | controller/src/collision/src/collision.c:418-420 | the two loops end on the direction's representative in [-180, 180], from any start |
| Picker.Choose | controller/src/collision/src/collision.c:406-442 | the picker as a whole is the specified choice |
| Picker.AnglesMean | controller/src/collision/src/collision.c:410-417 | the two angles: some distance along the bearing ends on the threat, and the simulator moves at some speed along its course |
| Picker.PickMeans | controller/src/collision/src/collision.c:406-442 | DESCEND exactly from a threat more than 300 ft above; else LEFT exactly if turning right by up to 160 degrees would face it, RIGHT if turning left would; never RTB or HOLD |
| Detector.FindSim | controller/src/collision/src/collision.c:633-662 | the lookups find the simulator's side and its diversion as specified |
| Detector.SimOfOther | controller/src/collision/src/collision.c:633-662 | of a pair with one simulator the other is the threat, whichever was scanned first |
| Detector.ScanIsFromScan | controller/src/collision/src/collision.c:514-520 | a snapshot of distinct aircraft scans to ordered, distinct pair keys |
| Detector.ScanComplete | controller/src/collision/src/collision.c:514-520 | every pair with known velocities is scanned |
| Detector.Detector.constructor | controller/src/collision/src/collision.c:752-757 | nothing tracked, nothing emitted |
| Detector.Detector.FindTracked | controller/src/collision/src/collision.c:279-288 | index of the key in the table, or -1 |
| Detector.Detector.TrackedRemove | controller/src/collision/src/collision.c:290-297 | the entries shift down; out-of-range indices do nothing; the diversions stay |
| Detector.Detector.ProcessPair | controller/src/collision/src/collision.c:519-727 | the pair loop's body is the specified step on table, marks, slots and log |
| Detector.Detector.ScanRow | controller/src/collision/src/collision.c:515-727 | the inner loop is the specified scan of one row against those after it |
| Detector.Detector.Report | controller/src/collision/src/collision.c:611-663 | level, JSON frame and the diversion cached on leaving CLEAR |
| Detector.Detector.Refresh | controller/src/collision/src/collision.c:611-710 | level, JSON frame, cached diversion, throttled frames and lock of one entry |
| Detector.Detector.SendToSim | controller/src/collision/src/collision.c:665-691 | sends exactly on transition or more than 3000 ms after the last send |
| Detector.Detector.EnterCrash | controller/src/collision/src/collision.c:693-726 | the CRASH edge: terminal frame, missile and ghost cancelled |
| Detector.Detector.WorkHandler | controller/src/collision/src/collision.c:496-748 | the whole tick on arrays is the specified tick on the scan of the snapshot |
| Detector.Detector.SweepUnseen | controller/src/collision/src/collision.c:730-739 | the backward loop is the specified sweep |
| Detector.Detector.RestartGhost | controller/src/collision/src/collision.c:948-963 | drops every pair naming the ghost without a frame |
| Detector.Detector.StopGhostAircraft | controller/src/collision/src/collision.c:1054-1059 | only the flag changes |
| Detector.Detector.CrashTrigger | controller/src/collision/src/collision.c:1063-1099 | one CRASH frame and one terminal frame, or nothing if an aircraft is unknown |
| Detector.TriggerNamesOther | controller/src/collision/src/collision.c:1085-1092 | the manual crash names the other aircraft if and only if the two were given in descending order |
| Snapshot.TakeSnapshot | controller/src/collision/src/collision.c:153-201 | the bounded copy holds every row of a well-formed table, all distinct |
| Snapshot.VelocityMeans | controller/src/collision/src/collision.c:153-201 | the reported speed along the reported heading; else from the second update on the velocity the filter's own prediction moves by; else unknown |
| Snapshot.SystemScans | controller/src/collision/src/collision.c:502-519 | however table operations and ticks interleave, every tick scans distinct aircraft |
| Snapshot.SystemProtocol | controller/src/collision/src/collision.c:496-748 | the frame protocol for table and detector run together, with the exact account of open encounters over every run |
| UsbRx.IsrKeeps | controller/src/usb_handler/src/usb_handler.c:59-98 | one turn of the interrupt loop keeps the invariant |
| UsbRx.ThreadKeeps | controller/src/usb_handler/src/usb_handler.c:109-168 | every single thread step keeps it |
| UsbRx.IsrTakes | controller/src/usb_handler/src/usb_handler.c:63-97 | what an interrupt turn takes: up to 64 bytes and the room left, all into the ring; it switches itself off exactly when there is no room |
| UsbRx.ReenabledExactly | controller/src/usb_handler/src/usb_handler.c:163-167 | the thread lets it back on exactly with more than 256 bytes free |
| UsbRx.EveryRun | controller/src/usb_handler/src/usb_handler.c:59-168 | in every interleaving: accepted = consumed + chunk + ring, no drops, and throttled implies a pending wakeup, draining, or the re-enable check with an empty ring |
| UsbRx.OffProgress | controller/src/usb_handler/src/usb_handler.c:64-77 | while Rx is off the interrupt changes nothing and each thread step brings Rx on or lowers the measure |
| UsbRx.RxComesBack | controller/src/usb_handler/src/usb_handler.c:109-168 | from every reachable state any schedule with enough thread steps turns Rx on again |
| UsbRx.LinesFromUart | controller/src/usb_handler/src/usb_handler.c:59-168 | in every interleaving the parsed lines are those of the consumed prefix of the bytes read |
| UsbRx.UsbHandler.InterruptTurn | controller/src/usb_handler/src/usb_handler.c:63-97 | the interrupt loop body is the specified step |
| UsbRx.UsbHandler.ThreadTurn | controller/src/usb_handler/src/usb_handler.c:109-168 | the thread's statements are the specified steps |
| UsbRx.UsbHandler.HandleByte | controller/src/usb_handler/src/usb_handler.c:115-160 | each byte of the chunk reaches the line buffer once, in order |
| Lines.FeedChunks | controller/src/usb_handler/src/usb_handler.c:112-161 | only the byte stream matters, not its chunking |
| Lines.StreamLines | controller/src/usb_handler/src/usb_handler.c:115-160 | a line of k bytes adds k div 512 overruns and delivers its last k mod 512 bytes, if any |
| Lines.ResyncExactly | controller/src/usb_handler/src/usb_handler.c:151-158 | "drop and resync" holds if and only if every overlong line has a length divisible by 512 |
| Lines.ShortLines | controller/src/usb_handler/src/usb_handler.c:115-160 | lines of at most 511 bytes are delivered exactly, without overruns |
| Lines.LongLineLeaks | controller/src/usb_handler/src/usb_handler.c:151-158 | a 513-byte line delivers its last byte as a line |
| Lines.LineReader.EndLine | controller/src/usb_handler/src/usb_handler.c:122-149 | a newline delivers the collected line, counts it as frame or parse error, and empties the buffer |
| Lines.LineReader.Accept | controller/src/usb_handler/src/usb_handler.c:116-159 | one byte through the fixed buffer is the specified step, the NUL always inside it |
| Lines.LineReader.AcceptChunk | controller/src/usb_handler/src/usb_handler.c:114-161 | a chunk is its bytes in order |
| Kinematics.StepSeconds | controller/src/missile/src/missile.c:120-121 | the step is within 0..30 s whatever the clock did |
| Kinematics.StepMs | controller/src/missile/src/missile.c:120-121 | it is the time since the last step, or the nominal tick if the clock went back or more than 30 s have passed |
| Kinematics.WrapUnique | controller/src/missile/src/missile.c:54-60 | the wrapped angle is the one number of (-180, 180] with the same direction |
| Kinematics.Wrap180 | controller/src/missile/src/missile.c:55-60 | both loops terminate on it from any start |
| Kinematics.SteerGap | controller/src/missile/src/missile.c:139-143 | heading in [0, 360), turned by at most the limit, and the circular gap is exactly max(0, gap - limit) |
| Kinematics.SteerAllGap | controller/src/missile/src/missile.c:139-143 | over any run of ticks on one bearing the gap shrinks by the sum; the heading arrives exactly when the sum reaches the gap |
| Missile.FindTarget | controller/src/missile/src/missile.c:78-87 | the first simulator aircraft of the table, or none |
| Missile.Desired | controller/src/missile/src/missile.c:133-137 | a bearing in [0, 360) along which some distance, at the scale of the position, ends exactly on the target |
| Missile.NextHeading | controller/src/missile/src/missile.c:139-143 | the clamped turn is the specified steering step |
| Missile.NextAltitude | controller/src/missile/src/missile.c:148-152 | the altitude gap becomes exactly max(0, gap - step), from either side and without overshoot |
| Missile.SeenAsFlown | controller/src/missile/src/missile.c:89-170 | a row made by a tick's report is seen where the tick left the missile, with exactly the velocity of the step the tick flew, its turn included |
| Missile.SeenToFly | controller/src/missile/src/missile.c:89-170 | and that of the coming step if the next tick has no target |
| Missile.RowReports | controller/src/missile/src/missile.c:89-102 | both the first and every later upsert of the report make a row with its motion, under its own name, source and time |
| Missile.PursueTurns | controller/src/missile/src/missile.c:132-143 | a tick with a target takes exactly min(gap, turn rate x time) off the angle between heading and bearing |
| Missile.FlyTurns | controller/src/missile/src/missile.c:104-143 | over every flight on which the ticks find the target on one bearing the angle is max(0, angle - turn rate x time), however the time is cut |
| Missile.Missile.SteerTo | controller/src/missile/src/missile.c:132-153 | heading and altitude move towards the target, nothing else |
| Missile.Missile.DeadReckon | controller/src/missile/src/missile.c:162-166 | latitude first, then longitude by the scale at the latitude just reached; nothing else changes |
| Missile.Missile.Worker | controller/src/missile/src/missile.c:104-170 | one firing: nothing if inactive, self-destruction from the expiry on, else steer, fly, report |
| Missile.Missile.Launch | controller/src/missile/src/missile.c:172-228 | defaults, launch site, initial bearing and expiry; without a target it fails and still ends a flight in progress |
| Missile.Missile.Cancel | controller/src/missile/src/missile.c:230-239 | inactive afterwards; fails only if it already was |
| Missile.LaunchedSound | controller/src/missile/src/missile.c:172-228 | a launch points exactly at the target from the launch site on the ground, with the speed, turn rate and lifetime ordered or their defaults |
| Missile.FlySteerable | controller/src/missile/src/missile.c:104-170 | the heading stays in [0, 360) over every flight |
| Missile.FlyUntilExpiry | controller/src/missile/src/missile.c:106-118 | still flying exactly when every tick so far came before the expiry |
| Missile.ClimbGap | controller/src/missile/src/missile.c:147-153 | the altitude gap becomes exactly max(0, gap - step) |
| Missile.ClimbStepExact | controller/src/missile/src/missile.c:148-149 | the step is exactly two feet per millisecond, truncation losing nothing |
| Missile.FlyClimbs | controller/src/missile/src/missile.c:147-153 | over every flight on one target level the gap is max(0, gap - 2 ft/ms x time), however the time is cut into ticks |
| Missile.AdvanceLength | controller/src/missile/src/missile.c:162-166 | each step flown is speed times time long, whatever the heading |
| Missile.PursuitCloses | controller/src/missile/src/missile.c:132-166 | once the turn limit covers the gap: the exact offset left to a stationary target for any longitude scales; it is |l - step| if and only if the longitudes or the two scales agree, or the rescaled overshoot mirrors it |
| Ghost.Ghost.Start | controller/src/collision/src/collision.c:965-1010 | spawn state and first report, sentinels replaced |
| Ghost.Ghost.SetCourse | controller/src/collision/src/collision.c:967-985 | the ghost flies at 250 kt straight against the target's heading, whatever that is |
| Ghost.Ghost.Place | controller/src/collision/src/collision.c:987-1005 | measured back from the target, the ghost is the closing distance ahead along its heading and the miss distance to its right |
| Ghost.Ghost.KeepAliveTick | controller/src/collision/src/collision.c:908-932 | one dead-reckoning tick and its report, or nothing once stopped |
| Ghost.Ghost.Stop | controller/src/collision/src/collision.c:1054-1059 | only the flag changes |
| Ghost.SpawnDefaults | controller/src/collision/src/collision.c:965-1010 | times, miss distance, altitude and heading a caller or target leaves out, and the closing distance |
| Ghost.UpsertShows | controller/src/collision/src/collision.c:893-906 | after any upsert of the report the table shows the ghost as it is, under its own name and source |
| Appointment.HorizontalShift | controller/src/collision/src/collision.c:241-253 | for any two aircraft holding course the time to closest approach runs down with the clock at the same separation; from zero on they are diverging |
| Appointment.MeetingExactly | controller/src/collision/src/collision.c:216-254 | a pair announced for t is announced for t - e after e seconds, at the same distance, if and only if its east-west offset is on track; and when exactly it is diverging |
| Appointment.GhostAppointment | controller/src/collision/src/collision.c:965-1005 | against a target at its own speed the detector sees closest approach at exactly tca_s and miss_m if and only if midway and target longitude scales agree or both are on one meridian |
| Appointment.EastboundMissed | controller/src/collision/src/collision.c:965-1005 | a concrete spawn, 500 m off a target flying due east over Brisbane, is not announced as ordered under any scale that grows southwards |
| Appointment.ApproachClock | controller/src/collision/src/collision.c:216-254 | the same clock for table snapshots, for every longitude scale |
| Appointment.CoastStraight | controller/src/collision/src/collision.c:917-927 | over any run of ticks, for every scale: latitude is velocity times time however that is cut, longitude velocity times the seconds weighted by the scales ticked at |
| Appointment.DriftBetween | controller/src/collision/src/collision.c:917-927 | those weighted seconds lie between the time at the least and at the greatest scale on the way |
| Appointment.GhostKeepsAppointment | controller/src/collision/src/collision.c:908-1005 | over any run of ticks, for every scale: the meeting is announced nearer by exactly the time passed, at the distance ordered, if and only if the ghost is measured on the ordered track |
| Appointment.Foresee | controller/src/collision/src/collision.c:908-1005 | the east-west offset to be measured after any run of ticks equals one worked out at the spawn from the order, the tick times and the scale |
| Appointment.GhostForeseen | controller/src/collision/src/collision.c:908-1005 | so whether and until when the appointment is kept can be told at the spawn, for every scale |
| Appointment.FlatOnTrack | controller/src/collision/src/collision.c:908-1005 | with a constant scale it is always kept |
| Appointment.MeridianOnTrack | controller/src/collision/src/collision.c:908-1005 | and along one meridian for every scale |
| Frames.Checksum | controller/src/common/src/ble_packet.h:153-161 | the accumulating loop is the exclusive or of all bytes but the last, on either side |
| Frames.XorAllFew | controller/src/common/src/ble_packet.h:153-161 | of nothing the checksum is zero, of one byte that byte |
| Frames.XorAssoc | controller/src/common/src/ble_packet.h:157-160 | bitwise exclusive or is associative, so the order of accumulation does not matter |
| Frames.XorAllUpdate | controller/src/common/src/ble_packet.h:157-160 | replacing one byte shifts the checksum by the difference |
| Frames.OneByteCaught | sim/mobile/src/main/src/codein.c:147-153 | a frame that passes the check fails it after any change of one byte |
| Frames.PackIcao | controller/src/collision/src/collision.c:304-312 | the loop packs the six characters into three bytes |
| Frames.HexMeans | controller/src/collision/src/collision.c:304-312 | a hexadecimal digit counts as its place among the sixteen, in either case |
| Frames.ParseMeans | controller/src/collision/src/collision.c:304-312 | what any two characters are read as, signs, white space and non-digits included |
| Frames.ShownIffHex | controller/src/collision/src/collision.c:304-312 | what the simulator prints is the identifier meant if and only if that is six lower-case hex digits |
| Frames.TestAircraftMisshown | controller/src/collision/src/collision.c:112-112 | `gh05t1` is shown as 000500 and `m1s51l` as 000001 |
| Frames.HexIsPrint | controller/src/bridge/src/bridge.c:72-72 | `%06x` of a 24-bit number is the text of its three bytes |
| WarningLink.BuildFrame | controller/src/collision/src/collision.c:332-340 | a zeroed frame filled field by field and stamped last |
| WarningLink.WarnWrite | sim/mobile/src/main/src/codein.c:112-191 | length, checksum and dispatch of a write to the warning characteristic |
| WarningLink.Delivered | sim/mobile/src/main/src/codein.c:142-178 | every message sent is accepted and read as meant: kind, severity, signed deltas, byte order |
| WarningLink.DiversionsRead | controller/src/collision/src/collision.c:374-396 | each diversion as read at the other end, in degrees and feet |
| WarningLink.FrameBytes | controller/src/collision/src/collision.c:314-396 | the frame byte by byte: type, identifier, severity, time, zeros, checksum |
| WarningLink.ThreatNamed | sim/mobile/src/main/src/codein.c:156-174 | the threat is printed under its own name if and only if that is six lower-case hex digits |
| WarningLink.DiversionsDistinct | controller/src/collision/src/collision.c:385-396 | no two diversions are read alike |
| WarningLink.TamperedRefused | sim/mobile/src/main/src/codein.c:116-153 | any accepted frame of either size is refused after any one-byte change |
| Bridge.Bridge.BridgeConvert | controller/src/bridge/src/bridge.c:49-91 | each rejection counts once under its own reason; a converted record is the specified one |
| Bridge.RefusedWhy | controller/src/bridge/src/bridge.c:49-66 | each reason of refusal, exactly when |
| Bridge.ConvertedIs | controller/src/bridge/src/bridge.c:68-91 | a converted record field by field against the frame: position, source, clock and three optional fields |
| Bridge.IcaoRoundTrip | controller/src/bridge/src/bridge.c:71-72 | every 24-bit identifier comes back from bridge text, packing and printing |
| Bridge.ConvertedNamed | controller/src/bridge/src/bridge.c:49-91 | conversion succeeds exactly on valid source, identifier and position; the aircraft is then named exactly in a warning |

## Left out

- Floating point: rounding, NaN, infinities and the `isfinite` guard; the angle loops are over exact
  reals, where they always terminate.
- Real trigonometry: nothing beyond the laws in `Trig.Sound` and `Geo.Sound` is assumed or proved.
- Overflow of `int32_t` altitude differences and of `int64_t` uptime.
- Appointment.GhostAppointment: takes the target to report the ghost's own 250 kt and positive longitude
  scales, which is the case the spawn geometry is written for.
- Appointment.FlatOnTrack: is about a constant scale; for any other, whether the ghost is on the ordered
  track is the condition `GhostForeseen` works out.
- CrashLock.LockFirstHolds: is about a repaired variant, as are `Diversions.RunBothCoherent` and
  `RunBothVoice`; the code as it stands is what `LockHolds`, `SweepCoherent` and `RunVoice` describe.
- Alerts.SendsThrottled: speaks of sends between which no ghost start dropped the pair; a drop forgets the
  time of the last send on purpose, so that the next ghost is announced at once.
- Diversions.RunVoice: is about pairs no manual trigger named, since a trigger logs a frame of its own
  without a diversion.
- Terminal.AgainExactly: is about a pair that stays tracked; an untracked one comes to CRASH whenever it
  is sighted there (`Terminal.CrashEdge`).
- Concurrency inside one interrupt-loop turn, which is atomic with respect to the thread; and shell
  commands (ghost restart, manual triggers) racing a tick, which are steps between ticks.
- A tick reads the table once: an aircraft changing between the snapshot and the simulator lookup is
  visible only through the lookup parameter of `Env`.
- Pool pointers are slot numbers, the ring buffer is a sequence with a capacity, and the mutex around
  every table call is the atomicity of a method.
- Missile.FlyTurns: is about ticks that find the target on one bearing; between other ticks the bearing
  itself moves, and `PursueTurns` speaks of each.
- Scripted inject traffic is not modelled.
- Which aircraft a BLE warning frame names is looked up again when it is sent; the detector's log records
  that it is sent, and `WarningLink` takes the identifier as given.
- The BLE link-up check and write errors, the detector's tick statistics, JSON number formatting, the JSON
  parser (a parameter of the line reader), the bridge's message queue, the simulator's own motion and
  freeze timers.
- Scanning, connection set-up, UART output, LEDs, watchdog, logging, the shell and the desktop tools.

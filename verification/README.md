# Verified model of the lookahead drum engine

A Dafny model of a drum machine's timing core, written in the system's own terms, with proofs of
what it promises.

The engine has two halves. The control half walks a one-bar pattern about 100 ms ahead of the
audio, queues timestamped triggers, remembers the last 32 steps it queued, and takes back what was
not heard yet (a flush) whenever the timeline jumps. The render half pulls the queue, keeps a
sorted list of pending events and applies each on its exact sample. Between them are an event ring
and a sequence lock. The timeline comes from an internal clock or from a follower of an external
source, fed by MIDI clock, taps or reports. A WebSocket bridge carries reports in, and an FFT checks
renders.

## What is proved

| question | files |
|---|---|
| Does the block size change what is heard? | `BlockSize.dfy` |
| Is a flushed trigger ever heard, a kept one lost or doubled? | `Renderer.dfy`, `Engine.dfy`, `FullList.dfy` |
| After a jump or a restart, which steps survive, and where does the pattern go on? | `QueuedLog.dfy`, `Realign.dfy`, `Restart.dfy`, `Jumping.dfy` |
| What does a step sound, and what a bar? | `Sounding.dfy` |
| What do a tap, a start, a re-sync, a tick, a parameter change, a nudge and a stop promise the listener? | `Calls.dfy`, `Offsets.dfy`, `Stopping.dfy` |
| Over a whole run, how close can two hits get, queued and heard? | `GridHits.dfy`, `GridRuns.dfy`, `Hearing.dfy` |
| And when the engine runs together with the follower it follows, or with the tap sequence? | `FollowedRun.dfy`, `TappedRun.dfy` |
| Which calls leave the next step in order, and what do slews behind a step and ticks behind a jump leave of it? | `Order.dfy`, `Pace.dfy`, `PaceChanges.dfy`, `AfterJump.dfy` |
| Which runs bring two steps too close, or miscount them? | `Counterexamples.dfy`, `ReplanExample.dfy`, `SlewExample.dfy`, `Miscount.dfy`, on the steps of `Trace.dfy` |
| Does the scheduler push the pattern's steps, each once, and stop after the number asked for? | `Scheduler.dfy`, `GridRuns.dfy` |
| With two threads, does a flush arrive in time? | `CommitPoint.dfy` |
| Is the ring a queue, and a snapshot whole, under every interleaving, and does every call get its answer? | `EventRing.dfy`, `RingCalls.dfy`, `SequenceLock.dfy`, `LockCalls.dfy` |
| Are the clocks invertible and continuous, does a slew converge, when does the follower jump? | `Clock.dfy`, `FollowerRuns.dfy`, `FollowerJumps.dfy`, `Report.dfy` |
| How does it lock, lose and find its source, and what does it learn from a report? | `Acquiring.dfy`, `Estimating.dfy` |
| What do the numeric kernels compute? | `InPlaceFft.dfy`, `LeastSquares.dfy`, `MidiClock.dfy`, `TapTempo.dfy` |
| What does a MIDI clock report when it is steady, has strays, jumps, pauses or speeds up, and where in the bar is its song? | `MidiClock.dfy`, `MidiLaws.dfy`, `Ramp.dfy`, `BarPhase.dfy` |
| Which tempo and beat come of taps in time, out of time, bounced, after a pause, at a new tempo? | `TapLaws.dfy`, `TapGrid.dfy` |
| Do messages survive fragmentation, masking and chunking; what ends a connection, and with which code? | `WebSocket.dfy`, `StreamEnd.dfy`, `Wire.dfy` |

Code that works in place is modelled in place and proved equal to functions on values:
`QueuedLog`, `Scheduler`, `EventQueue`, `Renderer`, `InternalClock`, `Control`, `LockstepEngine`,
`EventRing`, `MidiClockFollower`, `TapTempo`, `FollowerClock`, `ByteBuffer`, `Assembler` and the FFT
on its two arrays. The theorems over whole runs are about those functions. The two lock-free
protocols and the split-thread engine are step machines: one atomic load or store, or one call of
the other half, is one step, and a run is any sequence of steps.

64-bit floats are `real`; rounding to whole samples is explicit (`Round` is to nearest, halves away
from zero). Inputs that can be non-finite are `Float`. `sqrt`, the twiddle factors and UTF-8
validity are parameters, with only the laws stated where they are used.

## Where the code falls short of a plain statement

- The search for the first step at or after a sample is exact for every sample but 0. At 0 it is
  exact if and only if step 0 is not already past there; otherwise it stops too early, on a step
  before sample 0 (`FirstStepExact`). `FirstStepTooEarlyAtZero` gives such a clock, and
  `JoinAtZeroDoubles` a run whose start then queues steps 0 and 1 both at sample 0.
- A pull leaves a flush in the queue if and only if some flush finds the pending list full (256)
  when its turn comes (`PullLeavesFlush`). It is missed if and only if a held trigger it should
  take back is due in the block (`RenderSettles`), and then the survivors do not add up again
  (`MissedFlushIsHeard`). `FullListMissesFlush` reaches that from a new engine in four calls.
- A change that is no jump can bring the next step nearer to the newest one queued than half a step.
  `OrderKept` says exactly which do, for every call on either clock, from what is known before the
  call; `TempoKeepsOrder`, `ControlsKeepOrder`, `PatternKeepsOrder` and `PlanKeepsOrder` spell it out.
  `TempoChangeCrowds`, `ControlsChangeCrowds`, `PatternChangeCrowds` and `ReplanCrowds` are runs from
  a new engine that queue the two steps, the last of them with a follower that slews right behind a
  jump. Ticks never do that behind a jump (`TicksKeepOrder`), nor does any number of reports and
  ticks behind a queued step (`ReplansKeepOrder`) as long as the tempo stays within 1 % and the
  lookahead suits it (`SlewsReach`): 100 ms do up to 400 BPM without shuffle and up to 160 BPM with
  any (`SlewsFit`). Beyond, they can: `SlewCrowds` is such a run.
- A re-sync of the internal clock counts the dropped steps back in if and only if no jump has come
  since the grace note of a step still to sound (`ResyncCounts`). `ResyncMiscounts` is a run of 16
  steps that two taps and a re-sync turn into 17.
- A slew below 1e-12 of the tempo is not started, so an excess gap that small stays as it is
  instead of shrinking (`SlewConverges` states both cases).
- A sequence-lock read across a multiple of 2^63 publishes is let through (`AcceptsExactly`);
  `WrapsUnnoticed` is a run of that many that returns a pair never published.
- While tracking, a report stamped more than two seconds before the newest one makes the follower
  jump without the agreeing reports a jump needs, if and only if its precision is not Coarse
  (`JumpsAreHeld`). `WentBackJumps` is such a history.

## Model

| member | source | states |
|---|---|---|
| Clock.ClockInverse | core/sync/src/clock.rs:6-73 | the trait's contract: for the internal clock and the follower's timeline, shifted by nudge and latency, the two maps are inverse in both orders |
| Clock.ClockIncreasing | core/sync/src/clock.rs:66-73 | both maps are strictly increasing |
| Clock.ClockGalois | core/sync/src/clock.rs:14-17 | a beat falls at or after a sample exactly when the beat at that sample is not later |
| Clock.AudioRateSuffices | core/sync/src/internal.rs:22-76 | at any sample rate from 1 kHz up a beat of the internal clock spans at least 32 samples |
| Clock.TempoChangeIsContinuous | core/sync/src/internal.rs:45-49 | a tempo change keeps the beat at the moment of the change, for every tempo asked for |
| Clock.InternalClock.SetTempo | core/sync/src/internal.rs:45-49 | the anchor, updated in place, keeps the beat at `now` under the clamped new tempo |
| Clock.InternalClock.Align | core/sync/src/internal.rs:38-41 | the given beat falls on the given sample, tempo kept |
| Clock.InternalClock.SetSampleRate | core/sync/src/internal.rs:52-57 | a new sample rate keeps the beat at `now` |
| Pattern.StepBeatSpacing | core/sequencer/src/pattern.rs:315-322 | shuffle never brings neighbouring steps nearer than a sixth of a beat; twelve steps are always three beats |
| Pattern.FlamSecondsInRange | core/sequencer/src/pattern.rs:295-298 | flam spacing stays within 8 to 40 ms whatever the pattern says |
| Scheduling.StepsApart | core/sequencer/src/scheduler.rs:121-124 | after rounding and clamping, queued steps keep their order, and no two share a sample unless both were clamped to 0 |
| Scheduling.StepEventsInSpan | core/sequencer/src/scheduler.rs:130-147 | every event of a step lies in the span the log records for it, and fits the slots reserved |
| Sounding.StepSounds | core/sequencer/src/scheduler.rs:213-234 | of each voice on each step: nothing if it is muted or off there; else exactly one hit, of that voice, on the step's sample at the step's velocity, and with a flam exactly one more trigger, the flam's samples earlier (at 0 at the earliest), at 0.6 of it |
| Sounding.AccentIsLouder | core/sequencer/src/pattern.rs:326-334 | an accented hit is never quieter than a plain one, louder the higher the accent amount, at full velocity at 1 |
| Sounding.FlamWidens | core/sequencer/src/pattern.rs:295-298 | the flam amount runs from 8 to 40 ms, strictly and evenly |
| Sounding.FlamInSamples | core/sequencer/src/scheduler.rs:149-151 | in samples it is that time to the nearest sample |
| Sounding.ShuffleSwings | core/sequencer/src/pattern.rs:315-322 | even sixteenths stay on the grid; odd ones are delayed, strictly and evenly with the amount, to the last third of the eighth at its fullest |
| Sounding.StreamSounds | core/sequencer/src/scheduler.rs:190-238 | over any stretch of the stream a voice has as many triggers as its track has hits and grace notes written there, none if muted |
| Sounding.BarSounds | core/sequencer/src/scheduler.rs:190-238 | any sixteen steps in a row sound each voice's whole bar once |
| Scheduling.FirstStepExact | core/sequencer/src/scheduler.rs:91-108 | the search returns the first step whose rounded position on the clock is at or after the sample if and only if the sample is not 0 or step 0 is not before sample 0; else the step it returns is past |
| Scheduling.FirstStepTooEarlyAtZero | core/sequencer/src/scheduler.rs:91-124 | on a named valid pattern and clock the search at sample 0 stops on step 0, 9600 samples in the past, where the first step is 2, and steps 0 and 1 are queued together |
| Scheduling.ScheduleRefines | core/sequencer/src/scheduler.rs:190-239 | one call, whatever the consumer pops meanwhile: the pushed events are the ideal stream from the cursor, cut at a step boundary, no push fails, the flush reserve is left, and it stops only at the horizon, the end of the run, or for want of room |
| Scheduling.ScheduleAllRefines | core/sequencer/src/scheduler.rs:190-239 | over any sequence of horizons, pauses and pops everything pushed is one prefix of the ideal stream: nothing repeats, nothing is skipped |
| Scheduling.StopAfterConserved | core/sequencer/src/scheduler.rs:70-88 | under any interleaving of scheduling and seeking, steps scheduled and not discarded plus steps left equal the configured count |
| Scheduling.SeekKeepsCount | core/sequencer/src/scheduler.rs:82-88 | a seek adds back exactly the discarded steps to those still to play |
| Scheduling.Scheduler.Schedule | core/sequencer/src/scheduler.rs:190-239 | the loop, with a consumer popping between its looks at the room, does to cursor, run state and queue what the specification says, and returns the number of events pushed |
| Scheduling.Scheduler.FindFirstStep | core/sequencer/src/scheduler.rs:94-108 | the search loop terminates and finds the first step at or after the sample exactly under that condition |
| QueuedLogs.CutIsLeast | core/engine/src/control.rs:95-112 | the cut is the least flush point from the commit point on that splits no logged step; steps before it are whole and heard, the rest whole and dropped; it names the last heard and the first dropped |
| QueuedLogs.FlushAfterCut | core/engine/src/control.rs:79-87 | flushing the ring at the cut leaves exactly the heard steps |
| QueuedLogs.HeardGrows | core/engine/src/control.rs:95-112 | a later commit point never drops a step an earlier one kept |
| QueuedLogs.QueuedLog.Push | core/engine/src/control.rs:68-72 | the fixed ring of 32 holds the newest steps in order |
| QueuedLogs.QueuedLog.Flush | core/engine/src/control.rs:82-87 | the newest steps whose hit lies at or after the flush are forgotten, no others |
| QueuedLogs.QueuedLog.CutAt | core/engine/src/control.rs:95-112 | the walk over the ring, oldest first, gives the cut of its contents |
| Rings.WindowPush | core/engine/src/control.rs:68-72 | writing at the head of a ring appends, forgetting the oldest entry only when full |
| Rendering.InsertAllSorts | core/engine/src/renderer.rs:95-114 | the insertion sort of the pending list is a stable sort: same events, ordered, arrivals of one sample in order |
| Rendering.PlayApplies | core/engine/src/renderer.rs:78-143 | a block applies exactly the events before its end, in order, each on its own sample or, if late, on the block's first |
| Calls.AppliesNow | core/engine/src/renderer.rs:132-143 | what is due takes effect on the sample rendered next, whenever it was due |
| Rendering.PullKeepsSurvivors | core/engine/src/renderer.rs:95-127 | however far a pull gets, pending and applied events together are the survivors of what was pulled |
| Rendering.PullLeavesFlush | core/engine/src/renderer.rs:99-114 | a pull leaves a flush in the queue if and only if some flush finds the list at 256 when its turn comes |
| FullLists.FullListMissesFlush | core/engine/src/renderer.rs:95-127 | from a new engine with five seconds of lookahead, a start, one frame, a second start and a block: a step the second start took back is played |
| Rendering.PullTakesAll | core/engine/src/renderer.rs:95-114 | with room for everything that waits nothing is left in the queue |
| Rendering.Renderer.Process | core/engine/src/renderer.rs:78-89 | publish, pull and play on the fixed array do what the specification says to pending events, applied events, position and queue |
| Rendering.Renderer.InsertIn | core/engine/src/renderer.rs:104-112 | insertion from the back on the array is the sorted insertion |
| Rendering.Renderer.KeepIn | core/engine/src/renderer.rs:116-127 | filtering in place drops the triggers at or after the flush and keeps the rest in order |
| Rendering.Renderer.ApplyDueEvents | core/engine/src/renderer.rs:132-143 | exactly the events stamped up to `now` are applied, in order, and the rest moved to the front |
| Controlling.CommitPoint | core/engine/src/control.rs:668-675 | `now` once the renderer is past what it published, else two learned blocks beyond that, but at most half the lookahead; nothing else changes but what was learned |
| Controlling.RestartPutsStepZero | core/engine/src/control.rs:523-536 | after a restart of the internal clock step 0 sounds exactly on the sample asked for, under any latency and nudge |
| Controlling.SwitchKeepsBeat | core/engine/src/control.rs:264-289 | a switch of the clock keeps the beat at the moment of the switch |
| Calls.SwitchKeepsTempo | core/engine/src/control.rs:264-289 | and the tempo, from then on; controls, cursor, queue and log stay |
| Calls.TapPullsGrid | core/engine/src/control.rs:477-496 | a tap of the internal clock falls on the nearest whole beat there was, at the tempo tapped if there is one; a stopped machine does nothing else |
| Calls.BarBegins | core/engine/src/control.rs:391-518 | a start, and a re-sync whether it plays or not, put step 0 on the commit point; a start plays as many steps from there as configured; a re-sync leaves a stopped machine stopped with nothing queued, and one while following leaves all to the follower |
| Calls.TempoTakesHold | core/engine/src/control.rs:349-353 | a new tempo holds from now on, within 20 to 400 BPM, and keeps the beat that is now |
| Calls.EditsPlay | core/engine/src/control.rs:298-341 | a new pattern, or new timing controls, hold from the next step not queued yet: nothing is taken back, and the next tick queues that step and those behind it by them |
| Calls.StopsAfter | core/sequencer/src/scheduler.rs:159-206 | a number of steps to stop after, set while playing, counts from the next step not queued: a tick never goes beyond it and ends the run exactly there; without one it never ends by itself |
| Calls.TickReachesHorizon | core/engine/src/control.rs:779-815 | a tick leaves everything due before the horizon queued unless room ran short; only a flush that still waits for room holds it up, and then nothing is queued behind it |
| Calls.ParamArrives | core/engine/src/control.rs:637-692 | a parameter change takes effect on the next sample rendered if the queue has room beyond the flush reserve and the renderer gets to it; without that room nothing changes |
| Calls.FlushTakes | core/engine/src/renderer.rs:116-127 | a flush takes the triggers at and behind it off the pending list, all of them, and nothing else |
| Calls.PullHolds | core/engine/src/renderer.rs:95-127 | no flush takes a parameter change back |
| Calls.BlockIsSmallest | core/engine/src/control.rs:642-661 | however often the position is looked at, and though the renderer may start over: the block learned is the smallest advance seen between two looks |
| Offsets.NudgeAndLatencyShift | core/engine/src/control.rs:298-319 | a nudge in milliseconds makes every beat land that much later, a latency offset that much earlier, at the tempo it was set at, on either clock; no number counts as none |
| Stopping.StopHolds | core/engine/src/control.rs:418-420 | behind a stop and until a start, whatever else is called: nothing plays, cursor and log stay, and of triggers the queue gets not one more |
| Engines.AfterValid | core/engine/src/lib.rs:231-235 | every call keeps clocks, queue and pending list well formed |
| Engines.ControlStepPushes | core/engine/src/control.rs:391-815 | every call of the control half only appends to the queue, and every flush it sends lies at or after the render position |
| Engines.KeptFlushGoesFirst | core/engine/src/control.rs:789-794 | a flush that found the queue full is the next thing queued: until it is, a tick pushes no step, and later jumps only move it earlier |
| Engines.RenderSettles | core/engine/src/renderer.rs:78-143 | a render leaves every flush honourable if and only if it leaves none behind that a trigger held and due in the block should have been taken back by |
| Engines.MissedFlushIsHeard | core/engine/src/renderer.rs:95-143 | otherwise no list of held events, whatever is in it by the time that flush is pulled, makes up the survivors together with what was played |
| Engines.RoomSuffices | core/engine/src/renderer.rs:95-114 | no flush is missed if none finds the list full, or if all that waits fits |
| Engines.FlushRefinement | core/engine/src/control.rs:1088-1101 | over every run of starts, stops, taps, re-syncs, snaps, edits, clock switches, parameter changes and renders in which no flush is missed: what was played, and would be held once all that waits was taken, is what survives the flushes, each survivor once, nothing before its sample |
| BlockSizes.StartIsPoised | core/engine/src/control.rs:391-400 | a start from rest leaves the engine at the start of a performance |
| BlockSizes.ThreeBeatsAreRoomy | core/engine/src/renderer.rs:11-23 | the pending list has room for any pattern up to three beats of lookahead |
| BlockSizes.RendersIdeal | core/engine/src/lib.rs:231-247 | any blocks of 1 to lookahead less flam samples play the ideal step stream, stably sorted, up to the last frame, each event on its sample or the start position |
| BlockSizes.BlockSizeIndependence | core/engine/src/lib.rs:231-247 | two partitions of the same frames apply the same events at the same times |
| Realigning.NextStepIsHalfAStepOn | core/sequencer/src/scheduler.rs:121-124 | on any clock at audio rate, also while slewing, the next step is queued at least half a step later |
| Realigning.RealignCuts | core/engine/src/control.rs:591-615 | a realign keeps exactly the steps heard; the log, the plan and the queue lose the same whole steps; the cut names the true first step lost |
| Realigning.RealignAligned | core/engine/src/control.rs:591-622 | after a jump exactly the steps already heard survive, whole; the cursor is the first step on the new timeline at least half a step after the last one heard and no earlier than the commit point less the grace; the count still to play is kept |
| Jumping.RealignPlays | core/engine/src/control.rs:591-622 | a realign plays on from the first step no more than 20 ms before the commit point and half a step or more behind the one heard last: none such is left out, none other is played |
| Jumping.SnapPlays | core/engine/src/control.rs:439-450 | so does a follower's snap, with what was heard judged by the timeline before it |
| Jumping.TapPlays | core/engine/src/control.rs:477-496 | and so does a tap of the internal clock |
| Jumping.HeardLast | core/engine/src/control.rs:595-607 | heard last is the newest step in the log it is too late to take back; with all of 32 still ahead, what the old timeline says; else none |
| Jumping.HeardOnTimeline | core/engine/src/control.rs:598-606 | the old timeline says the newest step it puts before the commit point of those not in the log, or none |
| Jumping.StartJoins | core/engine/src/control.rs:401-414 | a start while following takes back what is queued from the commit point on and begins with the first step at or behind it that is half a step or more behind the last one in the log that is heard |
| Restarting.RestartCuts | core/engine/src/control.rs:543-557 | a restart drops the steps with a grid hit from the commit point on, the same from log and plan; all that stays is heard |
| Restarting.PastIsHeard | core/engine/src/control.rs:538-542 | a restart leaves in the queue the whole steps heard and the grace notes of a step whose hit it drops |
| Restarting.RestartAligned | core/engine/src/control.rs:391-517 | whatever was queued, behind a restart step 0 is due on its sample and the run starts counting afresh |
| Realigning.FlushTakesSteps | core/engine/src/control.rs:628-633 | a flush at the cut takes whole steps out of the queue, grace notes and hits together |
| Pacing.PaceKeepsOrder | core/engine/src/control.rs:796-814 | a clock re-planned any number of times, continuous at each, leaves the next step in order if its fastest rate since the newest step was queued would |
| Pacing.GentleKeepsPace | core/engine/src/control.rs:796-814 | from a step just queued, what its shuffle leaves of the way to the next at the fastest rate, less what that gains within the lookahead, is more than half a step and the flam |
| Pacing.FlamBehind | core/sequencer/src/scheduler.rs:130-151 | flams shorter than the shortest step never reach back over the step before |
| Pacing.HalfStepFlamsFit | core/sequencer/src/scheduler.rs:130-151 | flams shorter than half a step are, at 60 samples a beat or more |
| Pacing.SlewsAreGentle | core/sync/src/follower.rs:688-712 | so it is under every slew with the tempo moved 1 %, if tempo, lookahead and what the step's own shuffle leaves of the way to the next suit each other |
| Pacing.SlewsFit | core/engine/src/control.rs:15-16 | 100 ms of lookahead suit every tempo up to 400 BPM, drift included, without shuffle, and up to 160 BPM with any |
| SlewExample.SlewCrowds | core/sync/src/follower.rs:688-712 | a run of a new engine and a new follower together, at 400 BPM under full shuffle, beyond that bound: a report without a jump, with the tempo moved by less than 1 %, turns the slowest slew into the fastest, and the next step is queued 779 samples behind the last, where half a step is 896 |
| Ordering.OrderKept | core/engine/src/control.rs:298-450 | on either clock, whatever the call: a call without a jump leaves the next step in order if and only if the place it gives that step, worked out from the state before it, is at or after sample 0 and half a step of the new clock, or the new flam, behind the newest step queued |
| PaceChanges.PlanKeepsOrder | core/sync/src/follower.rs:688-712 | a plan of the follower does if and only if the beats ahead, first at the slew and then at the long-run rate, span that much |
| PaceChanges.FollowerPlans | core/sync/src/follower.rs:350-460 | every report and tick leaves the follower as it was or makes such a plan, keeping the beat at its position unless it reports a jump |
| PaceChanges.QueuedIsPaced | core/engine/src/control.rs:796-814 | a step queued within the lookahead while following starts out paced at the follower's tempo |
| PaceChanges.FollowerKeepsPace | core/sync/src/follower.rs:350-446 | behind a paced step still ahead of the next, an operation of the follower that reports no jump and keeps the tempo within 1 % leaves the next step in order, and paced |
| PaceChanges.ReplansKeepOrder | core/sync/src/follower.rs:350-446 | so does any number of them before the next step is queued |
| PaceChanges.TicksKeepOrder | core/engine/src/control.rs:779-788 | behind any jump of the follower any number of ticks leave the next step where the jump put it |
| AfterJumps.JumpIsStraight | core/sync/src/follower.rs:350-460 | whatever makes the follower jump, it lands on a straight line at the estimated tempo with no slew due |
| AfterJumps.StraightTicks | core/sync/src/follower.rs:432-446 | any number of ticks leave such a line where it is, a lost source included |
| PaceChanges.ReplanPullsLittle | core/sync/src/follower.rs:688-712 | re-plans bring the next step nearer by no more than 6 % of its way, with the tempo moved 1 % |
| ReplanExample.ReplanCrowds | core/engine/src/control.rs:439-450 | a run of engine and follower together: half a step behind a jump, a report a hundredth of a beat off, no outlier, brings the next step nearer than half a step, and it is queued there |
| PaceChanges.TempoKeepsOrder | core/engine/src/control.rs:349-353 | a tempo change leaves the next step in order if and only if the beats to it at the new tempo reach half a step, or its flam, beyond the newest step queued |
| PaceChanges.ControlsKeepOrder | core/engine/src/control.rs:298-319 | new controls leave the next step in order if and only if it is still half a step, or its flam, behind the newest one queued after moving by the change of nudge in beats less the change of latency |
| Counterexamples.TempoChangeCrowds | core/engine/src/control.rs:349-353 | a run from a new engine in which a tempo change queues two steps 500 samples apart, where half a step is 1350 |
| Counterexamples.ControlsChangeCrowds | core/engine/src/control.rs:298-303 | a run in which taking the nudge away queues two steps 1200 samples apart, where half a step is 3000 |
| PaceChanges.PatternKeepsOrder | core/engine/src/control.rs:338-341 | a pattern change leaves the next step in order if and only if its new shuffle still puts it behind a beat known before |
| Counterexamples.PatternChangeCrowds | core/sequencer/src/pattern.rs:315-322 | a run in which a pattern change right behind two taps queues the step found 1000 samples behind the last one heard, where half a step is 2000 |
| PaceChanges.PatternChangeKeeps | core/engine/src/control.rs:338-341 | once a step is queued on a steady internal clock no pattern change does |
| GridRuns.StepAligned | core/engine/src/control.rs:391-815 | each call keeps queue, log, cursor and planned steps in agreement |
| GridHits.ScheduleAligned | core/engine/src/control.rs:796-814 | a tick extends the plan in order, and the log stays its newest part |
| GridRuns.GridHitsApart | core/engine/src/control.rs:560-622 | over every run: the surviving triggers are those of whole planned steps and what was heard before the internal clock was last restarted, no two grid hits since lie closer than half a step, and steps heard, planned and left equal the configured number |
| GridRuns.EndedRunIsWhole | core/sequencer/src/scheduler.rs:159-206 | a run that ended by itself has played and planned exactly the configured number of steps, however often it jumped |
| GridRuns.NewEngineHitsApart | core/engine/src/lib.rs:54-59 | so for every run of a new engine |
| GridRuns.NewEnginePlays | core/engine/src/lib.rs:218-235 | a new engine that is started and rendered meets what the theorem asks, and has steps planned |
| GridRuns.StartFits | core/engine/src/control.rs:391-400 | a start on the internal clock meets it whatever was queued |
| Counterexamples.JoinAtZeroDoubles | core/engine/src/control.rs:401-414 | a run in which a start at sample 0 on a followed timeline ahead of it queues two steps there |
| Restarting.DropsNewestExactly | core/engine/src/control.rs:543-557 | the steps a restart takes back are the newest ones if and only if no jump has come since the grace note of a logged step still to sound |
| GridRuns.ResyncCounts | core/engine/src/control.rs:501-517 | a re-sync keeps the count of steps to play if and only if that is so |
| Miscounting.ResyncMiscounts | core/engine/src/control.rs:501-517 | a run of 16 steps from a new engine in which two taps, reported while step 3 is half heard, and a re-sync leave 14 to play behind 3 heard |
| Realigning.ShortFlamsClear | core/engine/src/control.rs:591-622 | the step a jump finds half a step behind the last one heard has its grace note clear of it if flams are shorter than half a step |
| FollowedRuns.FollowedRunFits | core/engine/src/control.rs:439-450 | an engine and the follower it follows, run together over reports, taps, blocks and other calls: the follower's own answers see to the audio rate, and to the order of the next step wherever it is paced or the line is the one a jump laid, so the run is one the spacing theorem is about |
| FollowedRuns.FollowedHitsApart | core/engine/src/control.rs:560-622 | so over such a run the surviving triggers are whole planned steps at least half a step apart |
| FollowedRuns.SwitchFollows | core/engine/src/control.rs:282-287 | a switch to the follower starts such a run |
| Hearing.HeardHitsApart | core/engine/src/control.rs:560-622 | of what was played: every trigger belongs to a whole step, and a grid hit is stamped, and sounds, at least half a step behind everything on time of the steps before |
| ControlHalf.Control.Realign | core/engine/src/control.rs:591-615 | in place, on log, queue, scheduler and clocks, a realign has the effect the theorems are about |
| ControlHalf.Control.DropFrom | core/engine/src/control.rs:543-557 | flushes what was queued from the commit point on, and returns the first step dropped |
| ControlHalf.Control.RestartAt | core/engine/src/control.rs:523-536 | re-anchors the internal clock, correcting for rounding |
| ControlHalf.Control.Commit | core/engine/src/control.rs:642-675 | learns the block size and fixes the commit point |
| ControlHalf.Control.Flush | core/engine/src/control.rs:628-633 | sends a flush, or keeps the earlier of it and one already kept |
| ControlHalf.Control.Start | core/engine/src/control.rs:391-415 | the new state of a start, for both clocks |
| ControlHalf.Control.Resync | core/engine/src/control.rs:501-518 | the new state of a re-sync, for both clocks |
| ControlHalf.Control.Tap | core/engine/src/control.rs:477-496 | an accepted tap re-tempos and re-anchors the internal clock and realigns a running pattern, or goes to the follower as an observation |
| ControlHalf.Control.SetClockMode | core/engine/src/control.rs:269-290 | the new clock goes on at the tempo and beat of the old; a follower switched to starts over in every field, at the precision asked for; one already followed only changes its precision |
| ControlHalf.Control.Observe | core/engine/src/control.rs:439-450 | an observation goes to the follower; exactly a reported jump realigns |
| ControlHalf.Control.Tick | core/engine/src/control.rs:779-815 | advances the follower in every field and takes note of its jump, handles that, retries a kept flush, schedules and logs |
| Lockstep.LockstepEngine.RenderBlock | core/engine/src/lib.rs:231-235 | tick then process is one step of the run the theorems quantify over |
| Lockstep.LockstepEngine.RenderFrames | core/engine/src/lib.rs:240-247 | rendering in chunks is a run of renders of at most the block size, covering all frames |
| SplitThreads.FlushIsAhead | core/engine/src/control.rs:641-675 | a flush sent at the commit point lies beyond anything the renderer can apply before it pulls it, with a learned block, two blocks of clearance and at most one more block begun |
| SplitThreads.FlushArrivesInTime | core/engine/src/control.rs:641-675 | over every interleaving of the two threads no trigger at or after a flush has been applied when the flush is pulled, and played plus pending events are the survivors |
| EventRings.CapacityIsLeast | core/sequencer/src/queue.rs:53-71 | the capacity is a power of two, at least what was asked for and less than twice that |
| EventRings.WrappedDifference | core/sequencer/src/queue.rs:75-98 | the wrapping difference of the counters is the number waiting, however often both wrapped |
| EventRings.SlotOfCounter | core/sequencer/src/queue.rs:75-122 | masking a wrapped counter selects the slot of the unwrapped one |
| EventRings.StepKeeps | core/sequencer/src/queue.rs:75-122 | every load and store of either side keeps counters, slots and history in agreement |
| EventRings.RingIsFifo | core/sequencer/src/queue.rs:53-138 | under every interleaving: popped is a prefix of pushed, whole and in order; no slot is written while read; a vacant reading stays a lower bound; a push is refused or a pop empty only if the ring was full or empty at the load |
| RingCalls.PushAnswers | core/sequencer/src/queue.rs:75-89 | whatever the consumer does between the steps of a push: the event is published when the call is over, unless the ring was full when the consumer's counter was loaded, and then it never is |
| RingCalls.PopAnswers | core/sequencer/src/queue.rs:110-122 | whatever the producer does between the steps of a pop: it takes the oldest event published, unless there was none when the producer's counter was loaded |
| RingCalls.VacantAnswers | core/sequencer/src/queue.rs:93-98 | what vacant answers is the room when it loads the consumer's counter |
| EventRings.EventRing.Push | core/sequencer/src/queue.rs:75-89 | on the slots in place: fails if and only if full, else appends |
| EventRings.EventRing.Pop | core/sequencer/src/queue.rs:110-122 | returns the oldest event, or nothing if and only if empty |
| EventRings.EventRing.Len | core/sequencer/src/queue.rs:127-132 | the number waiting, however often the counters wrapped |
| EventRings.EventRing.Vacant | core/sequencer/src/queue.rs:93-98 | the room left |
| SequenceLocks.AcceptsExactly | core/engine/src/timing.rs:42-59 | a read is let through if and only if no publish is under way and a multiple of 2^63 completed since its first load |
| SequenceLocks.SnapshotsAreConsistent | core/engine/src/timing.rs:31-59 | under every interleaving a snapshot is one published pair or the initial one, and reads never go back in publish order |
| SequenceLocks.SnapshotsAreFresh | core/engine/src/timing.rs:42-59 | a snapshot is never older than the last publish completed before the read began |
| LockCalls.ReadAnswers | core/engine/src/timing.rs:42-59 | whatever the writer does between the loads of a read: it returns if and only if no publish began or ended meanwhile, and then the newest pair; begun during a publish it loads nothing but the sequence number |
| SequenceLocks.WrapsUnnoticed | core/engine/src/timing.rs:42-59 | a run of exactly 2^63 publishes during one read: the pair returned has the position of one publish and the host time of another |
| BitReversals.RevInvolution | core/render/src/analysis.rs:198-210 | reversing the bits of an index twice gives it back |
| BitReversals.CountReversed | core/render/src/analysis.rs:200-205 | the carry loop on the bits of `j` counts up by one in reversed order |
| BitReversals.RevCounts | core/render/src/analysis.rs:199-205 | so `j` stays the bit reversal of `i` |
| InPlaceFourier.ReverseInPlace | core/render/src/analysis.rs:198-210 | the conditional swaps realise the bit-reversal permutation on both arrays |
| InPlaceFourier.MergeBlock | core/render/src/analysis.rs:215-229 | the butterflies of one block merge two half-size transforms and leave the rest of the arrays alone |
| InPlaceFourier.Pass | core/render/src/analysis.rs:215-229 | one pass turns blocks transformed at half the length into blocks transformed at the full one |
| Fourier.DftIsEval | core/render/src/analysis.rs:193-232 | the transform's sum is the signal's polynomial at the powers of the root |
| Fourier.CooleyTukey | core/render/src/analysis.rs:193-232 | the butterflies on the bit-reversed signal compute the discrete Fourier transform, given w(2) = -1 and w(2m)^2 = w(m) |
| InPlaceFourier.FftInPlace | core/render/src/analysis.rs:195-232 | for every power-of-two length the arrays end up holding the discrete Fourier transform of what they held |
| LeastSquares.FitIsLeastSquares | core/sync/src/midi.rs:278-316 | the one-pass sums give the only slope that minimises the squared error over all slopes and all intercepts per run; `rss` is that minimum, `a` the newest run's intercept |
| LeastSquares.FitReached | core/sync/src/midi.rs:308-315 | intercepts that reach the minimum; it is never negative, so clamping `rss` at 0 changes nothing |
| LeastSquares.FitExists | core/sync/src/midi.rs:303-305 | there is a fit if and only if some run holds two pulses |
| MidiClocks.SteadyFit | core/sync/src/midi.rs:278-316 | the fit of a steady clock has its exact period and passes through its newest pulse, whatever the phases of its runs |
| MidiClocks.SteadyPulsed | core/sync/src/midi.rs:183-260 | every pulse of a steady clock is accepted; it is reported if and only if six pulses, two in one run, are in the fit, the tempo is in range, and not a tenth off the one last reported with fewer than 24 pulses behind a pause; and then with the exact tempo |
| MidiClocks.SteadyClockIsExact | core/sync/src/midi.rs:160-260 | over any stream of Start, Continue, Stop and pulses, with phase restarts and pauses, no pulse is rejected and every reported tempo is exact |
| MidiClocks.FreshIsSteady | core/sync/src/midi.rs:123-138 | a new follower meets the invariant for every period |
| MidiLaws.PulsesPerBeat | core/sync/src/midi.rs:146-154 | twenty-four pulses last a beat of the tempo reported |
| MidiLaws.StraysDoNotMatter | core/sync/src/midi.rs:226-260 | with strays half a period or more off the line and pulses out of order anywhere between a steady clock's own, no more than three strays in a row: every tempo reported is the clock's, exactly |
| MidiLaws.StrayIgnored | core/sync/src/midi.rs:238-251 | up to three strays in a row are not reported and leave the fit alone; the pulse still counts for the song |
| MidiLaws.FourthStray | core/sync/src/midi.rs:238-258 | a fourth is believed: the fit starts over from it |
| MidiLaws.TempoJumps | core/sync/src/midi.rs:226-260 | a clock that goes over to another tempo: the first four pulses there are not reported, and every report behind them has the new tempo, exactly |
| MidiLaws.PauseStartsOver | core/sync/src/midi.rs:226-237 | behind a gap no tempo in range accounts for, the fit starts over from the next pulse, the tempo last reported on record |
| MidiLaws.PredictionOnLine | core/sync/src/midi.rs:344-350 | where the next pulse is predicted is on the least-squares line through the pulses there are: a pulse just there would cost that line nothing |
| MidiLaws.AnyTimeBehindContinue | core/sync/src/midi.rs:160-181 | behind a start or a continue the first pulse may come at any time |
| Ramps.RampIsFollowed | core/sync/src/midi.rs:323-342 | on a full window with every period longer, or shorter, than the last by the same amount, the period answered is that of the pulse to come if and only if that amount is above a stated bound, about 0.0008 samples; else it is the window's mean |
| BarPhases.SongPosition | core/sync/src/midi.rs:160-222 | over any messages to a new follower: every report is made by a timing clock and stamped as that was; while the song runs it says Bar(b), 0 <= b < 4, with 24 b congruent mod 96 to the number of pulses received while running since the last Start, which Stop and Continue leave standing; while it does not run, the tempo only |
| BarPhases.ReportsTell | core/sync/src/midi.rs:160-222 | the same from any state and history |
| MidiClocks.MidiClockFollower.LineThrough | core/sync/src/midi.rs:278-316 | the loop over the ring computes the pooled fit |
| MidiClocks.MidiClockFollower.AcceptTiming | core/sync/src/midi.rs:226-260 | which pulses join the fit, and what clears it |
| MidiClocks.MidiClockFollower.Period | core/sync/src/midi.rs:323-342 | the full-window slope, or its trend while the tempo moves |
| MidiClocks.MidiClockFollower.Handle | core/sync/src/midi.rs:160-222 | on the fields in place: counters, runs and report of every message as the specification `SongPosition` and `SteadyPulsed` are about |
| TapTempos.MedianIsMedian | core/sync/src/tap.rs:126-141 | no more than half of the values lie on either side of what the sort picks |
| TapTempos.MajorityIsMedian | core/sync/src/tap.rs:126-141 | a value held by a strict majority is the median |
| TapTempos.TapReports | core/sync/src/tap.rs:59-162 | whatever was tapped before, a report has the tempo of the true median, so of any strict majority, and its beat lies within half an interval of the tap |
| TapTempos.ReachableTaps | core/sync/src/tap.rs:59-122 | in every reachable state at most eight taps, strictly increasing |
| TapTempos.TwoTaps | core/sync/src/tap.rs:59-107 | a first tap reports nothing; a second one, a beat in range behind it, reports that tempo and a beat on itself |
| TapGrids.ReportOnGrid | core/sync/src/tap.rs:143-162 | whatever was tapped before: if more than half of the taps the report rests on lie on one grid of its interval, the beat it names lies on that grid, however far off it the newest tap is |
| TapGrids.MajorityGrid | core/sync/src/tap.rs:143-162 | the same of any taps and any interval |
| TapGrids.NewestCannotMove | core/sync/src/tap.rs:143-162 | of three taps or more the newest alone never moves the grid the others share |
| TapLaws.TapInTime | core/sync/src/tap.rs:59-107 | of a player in time every tap is taken, and from the second on reported with the player's tempo and a beat on itself |
| TapLaws.BounceIgnored | core/sync/src/tap.rs:62-74 | a tap within 0.35 of the interval is ignored |
| TapLaws.PauseStartsOver | core/sync/src/tap.rs:59-66 | after more than two seconds, or when time goes back, the player starts over |
| TapLaws.SlipIsDropped | core/sync/src/tap.rs:72-93 | one tap out of time and the next in time again: the tempo and the grid stay the player's, as if that tap had been missing |
| TapLaws.TempoChanges | core/sync/src/tap.rs:72-93 | two taps at a new interval more than a quarter off: only they count, and the report has the new tempo and a beat on the tap |
| TappedRuns.TapsCarryTempo | core/engine/src/control.rs:477-496 | over any run of taps and other calls, every tap that reaches the engine through the tap sequence carries a tempo in range |
| TapTempos.SortFirst | core/sync/src/tap.rs:135-161 | the array prefix ends up sorted, as the specification's sort |
| TapTempos.TapTempo.Tap | core/sync/src/tap.rs:59-107 | bounces, outliers, restarts and displaced taps change the sequence as specified |
| Following.WrapTakesTurns | core/sync/src/follower.rs:715-723 | wrapping takes off a whole number of moduli, the only one that leaves the half-open interval of one modulus around 0 |
| Following.SteeredValid | core/sync/src/follower.rs:688-712 | re-planning at `now` keeps the beat there and runs within the largest slew of the estimated tempo |
| Following.ObservePhaseValid | core/sync/src/follower.rs:496-600 | a phase report keeps every bound, and moves the output only under a reported discontinuity |
| FollowerRuns.AfterValid | core/sync/src/follower.rs:293-460 | every operation keeps the bounds, and the beat at its position unless it reports a discontinuity |
| FollowerRuns.FollowerTimeline | core/sync/src/follower.rs:740-755 | over every operation sequence: tempo in 20..400, drift within its bound, both rates positive, exact inverses, strictly increasing, continuous unless flagged |
| FollowerRuns.SteadyAtAudioRate | core/sync/src/follower.rs:671-712 | from 1 kHz up every timeline the follower can produce is one the scheduler walks exactly |
| FollowerRuns.SlewConverges | core/sync/src/follower.rs:688-712 | the excess gap keeps its sign and never grows; unsaturated it shrinks by 1 - rate dt / tau, saturated by rate max dt, until closed; then the output runs on at the gap clamped to the deadband; tiny slews are not started |
| FollowerRuns.ExcessNeverGrows | core/sync/src/follower.rs:432-446 | over any number of ticks the excess gap neither changes sign nor grows |
| FollowerRuns.ExcessDecays | core/sync/src/follower.rs:432-446 | over any number of ticks it decays exactly by the largest slew, then by 1 - rate dt / tau a tick, to zero |
| FollowerJumps.PhaseJump | core/sync/src/follower.rs:555-598 | while tracking, a phase report makes the output jump if and only if it is the last of enough agreeing outliers over enough beats, and an outlier without a jump leaves the estimate alone |
| FollowerJumps.AfterRemembered | core/sync/src/follower.rs:555-598 | the candidate jump is always the newest outliers of the history, each within threshold of the mean before it; anything else ends the run |
| FollowerJumps.JumpsAreHeld | core/sync/src/follower.rs:350-598 | over every history, while tracking with no re-sync asked for, an operation other than a reset moves the timeline if and only if it is a phase report taken that is the last of a held run, or is more than two seconds older than the newest, at a precision other than Coarse |
| Acquiring.LostSourceReturns | core/sync/src/follower.rs:525-554 | over every history: a follower that lost its source, or changed precision, takes a phase report within the threshold of its output for the same source and tracks it without a jump; one beyond it makes it jump if and only if one report is enough, and else begin to average |
| Acquiring.SilenceLoses | core/sync/src/follower.rs:432-446 | a tracked source is lost if and only if nothing came of it for two seconds; the output then runs on straight at its tempo |
| Acquiring.PrecisionLooks | core/sync/src/follower.rs:293-306 | a change of precision, and only that, makes a tracking follower look for its source again, without a jump |
| Acquiring.ReportAcquires | core/sync/src/follower.rs:525-554 | on the way to a lock, or when a re-sync was asked for, a report makes the follower jump if and only if it is the last of the reports its precision asks for (one, Coarse eight) and the tempo is known; the output then runs through the estimate |
| Acquiring.BeginsInPlace | core/sync/src/follower.rs:375-379 | a lock begun by a bar position is whole bars from it and at most two beats from the output, one begun by a beat position whole beats and at most half a beat |
| Estimating.NewsIsTaken | core/sync/src/follower.rs:350-374 | a report is taken if and only if its stamp is news: not over two seconds old or half a second ahead, and newer than the newest, or over two seconds older; any other leaves the follower as it was |
| Estimating.EstimateMoves | core/sync/src/follower.rs:604-638 | a report moves the estimate towards it, never past it, and no less than a running mean would |
| Estimating.MeanThenMemory | core/sync/src/follower.rs:604-638 | while reports are few the estimate is the mean of all of them; later each leaves of the residual the memory's share |
| Estimating.LearnsTheSkew | core/sync/src/follower.rs:604-638 | a source ahead makes the estimate faster, one behind slower, one on it neither: by the drift if it reports a tempo, within its bound, else by the tempo |
| Estimating.GainIgnoresOwnStamp | core/sync/src/follower.rs:510-524 | the spacing a report is weighed by is the mean of those before it, whatever its own stamp, unless that is more than twice the mean |
| Estimating.CarriedEvenly | core/sync/src/follower.rs:398-414 | a reported tempo is taken over, and the estimate carried to the report at the mean of the old and the new: exactly, if the source changed evenly |
| Estimating.MeasuresTempo | core/sync/src/follower.rs:465-481 | the first tempo of a source that reports none is the one that carries the estimate exactly onto the phase reported, by the turns nearest to what was expected |
| Estimating.TempoIsAdopted | core/sync/src/follower.rs:380-427 | a tempo reported is taken over, within 20 to 400 BPM, whatever the phase does |
| Estimating.BadTempoSaysNothing | core/sync/src/follower.rs:380-396 | a tempo that is no positive number says nothing |
| Estimating.TempoOnlyRevives | core/sync/src/follower.rs:416-427 | a report without a phase never jumps, and brings a lost source back |
| Estimating.ResetAnchors | core/sync/src/follower.rs:451-460 | a reset puts output and estimate on the beat asked for, straight on at the tempo held, and the next phase report is a first one |
| Estimating.PrecisionKeepsDrift | core/sync/src/follower.rs:293-306 | a change of precision keeps the drift, within the new bound |
| Estimating.JumpLands | core/sync/src/follower.rs:555-598 | the jump of a held run lands beyond the old estimate by the mean of the residuals that agreed, and counts on as many reports |
| Reporting.WentBackJumps | core/sync/src/follower.rs:359-368 | a history of one report after which a second, 200000 samples older and no outlier before it, makes the follower jump |
| Reporting.SnapsTo | core/sync/src/follower.rs:496-545 | a new Exact follower jumps onto its first phase report, at the tempo it is told, whatever the sample rate |
| Reporting.InlierSlews | core/sync/src/follower.rs:496-712 | a report that is no outlier and leaves the estimate 0.005 beats or more off the output makes an Exact follower's output go on where it is, without a jump, and slew by 5 % until the gap is closed |
| FollowerClocks.FollowerClock.Observe | core/sync/src/follower.rs:350-427 | the fields, updated one by one, end as the specification says |
| FollowerClocks.FollowerClock.Advance | core/sync/src/follower.rs:432-446 | loss of the source and the re-planned slew |
| FollowerClocks.FollowerClock.StepLock | core/sync/src/follower.rs:525-598 | what a phase report does in each state of the lock |
| FollowerClocks.FollowerClock.Correct | core/sync/src/follower.rs:604-638 | the alpha-beta update |
| FollowerClocks.FollowerClock.Steer | core/sync/src/follower.rs:688-712 | the re-planned output segments |
| FollowerClocks.FollowerClock.Reset | core/sync/src/follower.rs:451-460 | the re-anchored output and restarted estimate |
| FollowerClocks.FollowerClock.Renew | core/engine/src/control.rs:282-287 | every field as in a new follower, anchored without a reported jump |
| WebSockets.UnmaskBack | apps/bridge/src/ws.rs:160-166 | masking a payload twice gives it back |
| WebSockets.ParseStable | apps/bridge/src/ws.rs:99-173 | a frame found, or a violation, stays found however the stream goes on |
| WebSockets.ClientFrameBack | apps/bridge/src/ws.rs:292-308 | every legal frame, under any mask, parses back, and exactly its bytes are taken |
| WebSockets.PartialFrameWaits | apps/bridge/src/ws.rs:99-103 | before the whole of a legal frame is there nothing is taken and nothing refused |
| WebSockets.ParsedIsCanonical | apps/bridge/src/ws.rs:99-173 | the parser accepts only what the encoder writes: legal frames, minimal lengths, masked, no reserved bits |
| WebSockets.ServerFrameBack | apps/bridge/src/ws.rs:311-347 | what the server encodes the client parses back, whatever follows |
| WebSockets.CloseFrameBack | apps/bridge/src/ws.rs:202-207 | a close frame is never longer than a control frame may be, and reads back as a close with its code exactly when the cut reason is UTF-8 |
| WebSockets.ChunkingDoesNotMatter | apps/bridge/src/server.rs:629-681 | what is delivered, and how the connection ends, depends only on the bytes received |
| WebSockets.MessagesArrive | apps/bridge/src/ws.rs:229-288 | for any legal fragmentation with pings and pongs in between and among the fragments, any masks and any chunking, the original messages and pings arrive in order; pongs deliver nothing and leave the message in progress alone |
| StreamEnds.StreamEnds | apps/bridge/src/server.rs:629-681 | behind any items, in the middle of a message or not, whatever follows and however the bytes are cut: a close ends the connection as closed with 1000 if empty, else with its code if that is valid and the reason UTF-8; else, and for binary, a text within a message, a continuation without one, text that is not UTF-8 and a message over 65536 bytes, as a protocol error with exactly the code stated; what came before is delivered, what comes behind is not read |
| StreamEnds.OnlyThoseEnd | apps/bridge/src/ws.rs:231-281 | every other frame leaves the connection open |
| StreamEnds.RefusedExactly | apps/bridge/src/ws.rs:99-173 | a frame is refused by its header if and only if it breaks a rule of RFC 6455, with 1002, or is over 65536 bytes, with 1009 |
| StreamEnds.IllegalBytesEnd | apps/bridge/src/server.rs:629-681 | such bytes, behind anything legal and however cut, end the connection with that code |
| WireFormats.FrameRead | apps/bridge/src/ws.rs:99-173 | every frame the parser takes is what the bits say, by sections 5.2 and 5.3 of RFC 6455: final bit, opcode number, length, and every payload bit flipped where the mask has one |
| WireFormats.FrameWritten | apps/bridge/src/ws.rs:176-192 | a frame the server writes is final, unmasked, of its opcode's number, its length in the shortest form |
| WireFormats.NetworkOrder | apps/bridge/src/ws.rs:116-142 | length fields have the most significant byte first |
| WebSockets.EncodeClientFrame | apps/bridge/src/ws.rs:292-308 | the vector built byte by byte is the specified frame |
| WebSockets.ByteBuffer.ParseClientFrame | apps/bridge/src/ws.rs:99-173 | the branches on the buffer give the specified result, and the buffer loses the frame or nothing |
| WebSockets.Assembler.Push | apps/bridge/src/ws.rs:231-281 | the message in progress and the outcome for every opcode |
| WebSockets.Receive | apps/bridge/src/server.rs:629-681 | the receive loop drains whole frames until none is left or the connection ends |

## Left out

- Floating-point rounding: positions and tempos are real numbers; what is rounded in the source to whole samples is rounded here.
- Integer widths: sample positions, steps and pulse counts are unbounded, except where wrapping or saturation matters to a proof (ring counters, sequence numbers, run numbers, the saturating stop position).
- GridRuns.GridHitsApart: spacing is stated between restarts of the internal clock, which the source exempts; the queue has room for a flush at each call, no more than 32 steps are ahead, the clock is at audio rate, flams are shorter than a step, and the step a jump finds has no grace note that reaches back over the last one heard (`ShortFlamsClear`). A call that is no jump is asked to leave the next step in order, which not all do: re-plans of a follower between a jump and the next queued step (`ReplanCrowds`), new controls (`ControlsChangeCrowds`), tempos and patterns; `OrderKept` is the exact condition.
- GridRuns.NewEngineHitsApart: asks the same.
- GridRuns.EndedRunIsWhole: asks the same.
- Hearing.HeardHitsApart: asks the same.
- FollowedRuns.FollowedRunFits: of a report between a jump and the next queued step, and of a change of controls or pattern, it asks that condition; of a paced step that the tempo stays within 1 %.
- Realigning.RealignAligned: flams shorter than a step, and no grace note of the step found that reaches back over the last one heard: the logged steps would not be in order.
- Pacing.SlewsAreGentle: a sufficient bound on tempo, lookahead and shuffle with the tempo moved by 1 % at most, not an exact one; beyond it steps can come closer (`SlewCrowds`).
- PaceChanges.FollowerKeepsPace: the same bound, and only behind a queued step; right behind a jump it is false (`ReplanCrowds`).
- Engines.FlushRefinement: asks that the queue is not full when a call is made; what a full queue does to a flush is `KeptFlushGoesFirst`.
- BlockSizes.BlockSizeIndependence: the internal clock at a fixed tempo and pattern, with no more events within the lookahead than the pending list has room for.
- SplitThreads.FlushArrivesInTime: blocks of one size, as the learned block is the smallest distance between two positions read.
- SequenceLocks.SnapshotsAreConsistent: fewer than 2^63 publishes during one read; `AcceptsExactly` says what happens otherwise.
- MidiClocks.SteadyClockIsExact: the steady clock is exact; strays are `StraysDoNotMatter`, but how far jitter below half a period moves the fit is not bounded.
- EventRings.RingIsFifo: a sequentially consistent memory, each load and store its own step; the orderings that make it so are not modelled.
- FollowerClocks.FollowerClock.Observe: the 32-bit update counter does not saturate.
- Changes of the lookahead during a run, and feeding MIDI messages through the control half.
- Voices, master section and sample rendering: the renderer's events are applied to a list in their place.
- Pattern notation, band energies, onsets and fingerprints: simple loops over a buffer.
- Network sources, host time, Ableton Link, Pro DJ Link and Opus sources, the C interface and the shells: input, output and foreign code.
- HTTP, the handshake's SHA-1 and base64, origin policy and idle timeouts of the bridge: plumbing around the codec.

# AutoLee verification

A Dafny 4.11 model of the firmware that drives the AutoLee press, and proofs of what it
promises. `dafny verify dfyconfig.toml` checks everything.

The model has five parts, each a group of modules (one per file):

- **Step planning and pulses**: `StepRampModel` (`StepRamp.dfy`), `Stepper`, `SgBlanking`. The
  planner's state is the position, the direction and the squared speed, so arrival needs no
  square root; the class carries the speed `v` itself with `v * v` equal to it.
- **Uploads and forms**: `FormCodec`, `Multipart` (the parser and its class), `MultipartScan` (how
  the end of an item is found), `MultipartHeaders`, `MultipartFault` (what the parser does not survive),
  `MultipartRoundTrip`, `MultipartCut` (bodies it does not get to the end of). One character is one byte.
- **Settings store**: `SettingsBlob` (layouts, validation, migration), `SettingsLayout` (the layouts
  as packed structures), `SettingsStore` (capture,
  apply, write, erase), `PowerCut` (the store on its own), `SystemPowerCut` (the store beside the
  running machine).
- **Stall detection**: `StallSearch` (the search for a hard stop), `StallMonitor` (jam counter and
  stroke statistics), `AutoSg` (measuring the trips), `Endpoints`.
- **Motion supervisor**: `MotorFsm`, `MotionState`, `Supervisor` (what each operation does, as a
  function of the state and of what is sensed), `Press` and `MotionCmd` (the classes that carry it
  out step by step), `Machine` (boot and pump loop), `Runs` (events, runs and the invariant),
  `Safety` (jam recovery, gates, toggles), `JamDetection` (how long it stays set up, and what a jam
  is raised from), `Strokes` (back and forth), `StrokeTimes` (first strokes, and when each began),
  `RunEnds` (jams, stops, time-outs), `Measuring` (Auto SG), `Conservation` (strokes and batches),
  `Statistics` (cycle times and health counts), `Asked` (requests and settings), `Referencing` (homes,
  calibrations, offsets), `Reachable` (every run from every boot).

Code that changes state is a class whose methods are proved equal to a function of the old state;
the theorems are about those functions, over every input and every run. A run begins with a boot, on any
flash content, and goes on with any sequence of pump iterations, writes from the web and touch tasks,
and reboots. What the firmware cannot decide
(clock, stepper position, StallGuard readings, outcomes of searches, of waits and of flash
operations) is a parameter of the step.

## Where the code does not do what its comments or its standard say

Each of these is stated as a lemma, with the exact condition wherever there is one; the model follows
the code.

- Multipart fields pass through `addParam` with its default `decode = true`, so a field that was
  never percent-encoded is decoded: it arrives unchanged if and only if it holds no NUL, no `+` and
  no percent escape (`MultipartRoundTrip.FieldUnchanged`).
- The parser finishes a body if and only if the first dash after the last delimiter is four bytes
  before the announced end. So a body that ends in `--boundary--` without the optional line end of RFC
  2046 section 5.1.1, or that goes on with an epilogue, delivers all its parts but leaves the parser in
  its error state, and `-xyz` in place of `--` and a line end is accepted
  (`MultipartRoundTrip.ClosingExact`, `MultipartRoundTrip.UnendedBody`).
- The item buffer of a file is freed at its delimiter, but the bytes of a delimiter that turns out to
  be none are still stored through it: the program ends on a body if and only if somewhere a file's
  delimiter is followed by neither a dash nor a line end (or a boundary of 256 characters has to be
  replayed, which an 8-bit index never finishes) (`MultipartFault.FaultsExactly`).
- A body that breaks off in a file while some of a delimiter is held back, and ends on a byte that
  breaks that off, hands over every held-back byte in a final call of its own
  (`MultipartCut.FileBreaksOff`).
- The write at the end of `load()` is not retried by `tick()` when it fails, although the comment
  says so: a boot that could read the flash leaves the store in step with it if and only if that write
  succeeded; one that could not read it either is in step without that write only if the flash happens
  to hold the defaults with one boot counted (`PowerCut.BootPersistsIffWritten`,
  `PowerCut.FailedBootWriteNotRetried`).
- A travel of exactly twice the endpoint guard passes calibration, but a reboot loses it: a saved
  calibration survives if and only if its travel is more than that and within the search distance
  (`PowerCut.CalibrationSurvives`; over whole runs `SystemPowerCut.PowerCutRestores`).
- Restored endpoints may have UP elsewhere than at 0. A home then takes UP to 0 and leaves DOWN, so what is
  saved after it survives the next reboot if and only if DOWN alone is more than twice the guard
  (`SystemPowerCut.HomeMovesUp`).
- A power cut while Auto SG measures brings back the profile being measured, not the operator's
  (`SystemPowerCut.AutoSgPowerCut`).
- Jam detection is set up whenever an ordinary run begins, but a trip set to 0 while the press runs
  switches it off without stopping the press. It stays set up throughout a run of the machine if and
  only if nobody does that during an ordinary run (`Safety.RunsBeginGuarded`, `JamDetection.GuardedExactly`;
  `Safety.TripClearedMidRun` clears the active profile's trip: the press runs on, and no reading jams it).
- A wait that gives up during a home or a calibration latches the position stale, but a search that
  completes overwrites the flag: the position counts as referenced exactly if the search completes and,
  after a calibration, the parking wait does not give up (`Safety.SearchGatesRefineActions`).
- A ramp retargeted ahead of itself but inside its stopping distance is stopped dead on the target:
  it lands there in as many steps as it is away, and within one step's speed if and only if v² was at
  most 2a times the distance plus one (`StepRampModel.Arrival`).
- At the run acceleration the acceleration blanking covers the ramp if and only if the profile runs at
  25 steps per second or more (`SgBlanking.RunBlankingExact`).

## Model

| member | source | states |
|---|---|---|
| `StepRampModel.StepRamp.NextStep` | lib/autolee_logic/step_ramp.h:28-73 | One call takes the planner from its old state to the state the specification gives, and the step lasts exactly as long as constant acceleration takes, or is none |
| `StepRampModel.StopStepsIsCeil` | lib/autolee_logic/step_ramp.h:48 | The number of braking steps, defined as the unique count that uses up the squared speed, is the rounded-up quotient the code computes |
| `StepRampModel.Progress` | lib/autolee_logic/step_ramp.h:28-73 | From every state each call takes exactly one of the steps to go, and only a planner with none left comes to rest, on the target |
| `StepRampModel.LandsOnTarget` | lib/autolee_logic/step_ramp.h:28-73 | With a fixed target the planner always terminates, at rest on the target, after exactly the steps that stopping and returning take |
| `StepRampModel.Arrival` | lib/autolee_logic/step_ramp.h:38-72 | With the target ahead it never passes it, never exceeds top speed or the speed it came with, and arrives within one step's speed if and only if it could still brake from where it started |
| `StepRampModel.GentleArrival` | lib/autolee_logic/step_ramp.h:28-72 | From rest it lands exactly on the target in as many steps as it is away, with v² at most 2a and within top speed |
| `StepRampModel.SpeedProfile` | lib/autolee_logic/step_ramp.h:38-72 | As long as the stopping distance is shorter than the way left, v² changes by 2a a step towards top speed, from above or below, and stays there |
| `StepRampModel.ReachesSpeed` | lib/autolee_logic/step_ramp.h:54-56 | From rest v² after n steps is the lesser of what n steps gain and exactly top speed, at least over the first half of the way: a long enough move reaches its set speed |
| `StepRampModel.RestsExactly` | lib/autolee_logic/step_ramp.h:38-69 | The planner rests exactly on its target, or where it stands without a speed or an acceleration |
| `StepRampModel.BrakesToTarget` | lib/autolee_logic/step_ramp.h:48-53 | Once the stopping distance is no longer shorter than the way left, every step takes 2a off v², down to the target |
| `StepRampModel.NoSecondGain` | lib/autolee_logic/step_ramp.h:38-72 | On the way to its target a planner within top speed gains speed in one stretch only: after a step that gains none it holds or brakes for good |
| `StepRampModel.BrakesToRest` | lib/autolee_logic/step_ramp.h:51-53 | With the target behind, each step keeps the direction and takes 2a off v², until exactly the stopping distance is used up |
| `StepRampModel.Reversal` | lib/autolee_logic/step_ramp.h:28-72 | With the target behind it overshoots by exactly the stopping distance, comes to rest, turns, and lands gently on the target |
| `StepRampModel.RetargetedSafely` | lib/autolee_logic/step_ramp.h:28-73 | Whatever targets and limits it is given on the way, its speed never exceeds the largest limit, and it still ends at rest on the last target |
| `Stepper.Pulse` | main/drivers/stepper.cpp:97-107 | Both halves of a pulse fit the peripheral; ticks plus remainder equal the exact duration, and the remainder is at most half a tick unless the pulse was clamped |
| `Stepper.FillChunk` | main/drivers/stepper.cpp:82-113 | A chunk is the planner's own steps, all in one direction; its ticks plus the carry out equal the exact durations plus the carry in; it is empty only at rest on the target |
| `Stepper.RunMove` | main/drivers/stepper.cpp:120-156 | Each turn sends one chunk of the planner's own steps under that turn's settings, from where the last chunk left the ramp, the first from rest at the start; pulses counted by the DIR level add up to the position change, no buffer is refilled in flight, DIR moves only while nothing is in flight, and without a stop it exits only at rest on the last-read target; over the whole move ticks sent plus the remainder equal the durations of those chunks |
| `Stepper.MoveEnds` | main/drivers/stepper.cpp:120-156 | Once the settings no longer change and nobody stops it, a move is at rest on its target after at most as many further turns as the planner then has steps to go, and one |
| `SgBlanking.TimeToSpeed` | lib/autolee_logic/step_ramp.h:22-24 | Step durations telescope: reaching speed v from rest takes v / a |
| `SgBlanking.TopSpeedTime` | lib/autolee_logic/step_ramp.h:22-24 | On a move long enough top speed is reached no earlier than at v / a, and all but the last step on the way there have been taken by then |
| `SgBlanking.BlankingCoversRamp` | lib/autolee_logic/sg_blanking.h:14-16 | From 25 steps/s on, for every acceleration and every run of planner calls from rest, each step that gains speed, however late, is over before the window ends |
| `SgBlanking.RunBlankingExact` | lib/autolee_logic/sg_blanking.h:14-16 | At the run acceleration the window covers every step that gains speed if and only if the profile runs at 25 steps/s or more |
| `SgBlanking.AccelWindowTight` | lib/autolee_logic/sg_blanking.h:14-16 | The acceleration window outlasts the acceleration to top speed by at most 80 ms |
| `SgBlanking.BrakesInsideDecelWindow` | lib/autolee_logic/sg_blanking.h:20-23 | At or below top speed no step that slows for its target starts outside the deceleration window |
| `SgBlanking.DecelWindowCovers` | lib/autolee_logic/sg_blanking.h:20-23 | In every run of planner calls from rest each step that loses speed starts inside the deceleration window |
| `SgBlanking.DecelWindowTight` | lib/autolee_logic/sg_blanking.h:20-23 | Braking from top speed takes all of the deceleration window but 499 or 500 steps |
| `FormCodec.UrlEncode` | lib/psychic_http/src/PsychicHttpServer.cpp:718-734 | The loop yields the percent-encoding of the whole string, which `DecodeEncode` and `EncodedAlphabet` characterise |
| `FormCodec.UrlDecode` | lib/psychic_http/src/PsychicHttpServer.cpp:736-760 | The loop yields the decoding of the whole string |
| `FormCodec.DecodeEncode` | lib/psychic_http/src/PsychicHttpServer.cpp:718-760 | Decoding inverts encoding on every byte string (section 2.1 of RFC 3986) |
| `FormCodec.EncodedAlphabet` | lib/psychic_http/src/PsychicHttpServer.cpp:718-734 | An encoded string holds nothing but unreserved characters and '%', so no separator |
| `FormCodec.EncodeFixes` | lib/psychic_http/src/PsychicHttpServer.cpp:718-734 | Encoding leaves a string alone if and only if it holds nothing but letters, digits and `-._~` (section 2.3 of RFC 3986) |
| `FormCodec.AnySpelling` | lib/psychic_http/src/PsychicHttpServer.cpp:736-760 | Decoding reads every spelling of a string: `+` for a space, escapes with digits of either case, also of characters that need none |
| `FormCodec.DecodeFixesPlain` | lib/psychic_http/src/PsychicHttpServer.cpp:736-760 | Decoding leaves a string alone if and only if it has no '+' and no percent escape |
| `FormCodec.Params.AddParam` | lib/psychic_http/src/PsychicRequest.cpp:569-577 | One parameter is appended, decoded or as it is, cut at a NUL as a C string |
| `FormCodec.Params.AddParams` | lib/psychic_http/src/PsychicRequest.cpp:553-567 | The loop appends exactly the parameters the form holds, in order, and changes nothing before them |
| `FormCodec.FormRoundTrip` | lib/psychic_http/src/PsychicRequest.cpp:553-577 | For every list of NUL-free names and values, the encoded form parses back to the same list in order |
| `FormCodec.EveryForm` | lib/psychic_http/src/PsychicRequest.cpp:553-577 | Any form, with or without an '=' in its fields, gives one parameter a field, in order, cut at the first '='; only an empty field at the very end gives none |
| `FormCodec.EveryString` | lib/psychic_http/src/PsychicRequest.cpp:553-567 | Every string is such a form |
| `Multipart.Processor.HandleUploadByte` | lib/psychic_http/src/MultipartProcessor.cpp:126-136 | The byte joins the buffer; a full buffer or the last byte hands over exactly the buffered bytes at their index |
| `Multipart.Processor.HeaderByte` | lib/psychic_http/src/MultipartProcessor.cpp:195-243 | One byte of a header line: collected, parsed at the line end, or starting the item after the blank line |
| `Multipart.Processor.ParseByte` | lib/psychic_http/src/MultipartProcessor.cpp:147-342 | For every boundary one byte takes the whole parser, its item buffer, parameters and uploads, to the state the specification gives, replays included |
| `Multipart.Processor.Process` | lib/psychic_http/src/MultipartProcessor.cpp:116-121 | The driving loop runs the parser over the body as a C string |
| `MultipartScan.DataStep` | lib/psychic_http/src/MultipartProcessor.cpp:167-303 | Inside an item a byte extends the held-back delimiter, completes it, or makes data of it, uniformly over six parser states |
| `MultipartScan.MatchedLongest` | lib/psychic_http/src/MultipartProcessor.cpp:244-303 | What is held back is the longest suffix of the bytes read that begins the delimiter |
| `MultipartScan.HeldBack` | lib/psychic_http/src/MultipartProcessor.cpp:138-303 | Over every run inside an item, bytes written followed by bytes held back are exactly the bytes consumed |
| `MultipartScan.ItemScanned` | lib/psychic_http/src/MultipartProcessor.cpp:272-303 | The item ends where its delimiter first ends, holding exactly the bytes before it |
| `MultipartHeaders.NameThenFilename` | lib/psychic_http/src/MultipartProcessor.cpp:203-222 | A name and a filename without ';' are cut out whole, whatever quotes or '=' they hold |
| `MultipartHeaders.TypeLine` | lib/psychic_http/src/MultipartProcessor.cpp:200-202 | A Content-Type line sets the type and makes the item a file |
| `MultipartHeaders.EveryLine` | lib/psychic_http/src/MultipartProcessor.cpp:199-204 | Every header line: the two names are recognised in any case and with something behind them, any other line changes nothing |
| `MultipartHeaders.EveryDisposition` | lib/psychic_http/src/MultipartProcessor.cpp:203-222 | Any list of disposition parameters is read one by one in any order, names and filenames taken, others and bare words passed over |
| `MultipartHeaders.EmptyEnds` | lib/psychic_http/src/MultipartProcessor.cpp:205 | An empty parameter ends the disposition: what follows it is not read |
| `MultipartFault.FaultsExactly` | lib/psychic_http/src/MultipartProcessor.cpp:298-341 | Over every body, well-formed or not, the program ends on it if and only if a delimiter of a file (or a 256-character one) is followed by neither a dash nor a line end |
| `MultipartCut.ErrorStays` | lib/psychic_http/src/MultipartProcessor.cpp:147-157 | Once in error the parser receives nothing more, whatever follows, and frees the item buffer |
| `MultipartCut.MemoryDecides` | lib/psychic_http/src/MultipartProcessor.cpp:223-243 | A file's item starts exactly if there is memory for its buffer; without it nothing more of the request is received |
| `MultipartCut.LongBoundary` | lib/psychic_http/src/MultipartProcessor.cpp:270-303 | With a boundary of more than 256 characters no item ever ends and no parameter is received |
| `MultipartCut.FileBreaksOff` | lib/psychic_http/src/MultipartProcessor.cpp:126-145 | A body that breaks off in a file: all its bytes are handed over, the last byte in one final call and one more for every byte held back, or those held back are lost without a final call; never is there a parameter |
| `MultipartRoundTrip.RoundTrip` | lib/psychic_http/src/MultipartProcessor.cpp:100-342 | For every boundary of section 5.1.1 of RFC 2046 and every non-empty list of parts free of the delimiter, the parser finishes, without fault, having delivered in order a parameter for each text, name and value decoded, and a parameter and the chunks for each file that is not empty |
| `MultipartRoundTrip.PartsUnchanged` | lib/psychic_http/src/MultipartProcessor.cpp:285-296 | Those parameters are exactly the parts sent if and only if no text holds a NUL, '+' or percent escape, no file is empty and no file's names hold a NUL |
| `MultipartRoundTrip.ClosingExact` | lib/psychic_http/src/MultipartProcessor.cpp:304-324 | Whatever follows the first dash after the last delimiter, the same is delivered, and the parser finishes if and only if that dash is four bytes before the announced end, and ends in its error state otherwise |
| `MultipartRoundTrip.UnendedBody` | lib/psychic_http/src/MultipartProcessor.cpp:305-313 | In particular, without the line end after the closing dashes the parser ends in its error state |
| `MultipartRoundTrip.BrokenTail` | lib/psychic_http/src/MultipartProcessor.cpp:314-341 | A last delimiter followed by neither a dash nor a line end, a return without its line feed included, ends the program there if and only if the last part was a file |
| `MultipartRoundTrip.OpeningExact` | lib/psychic_http/src/MultipartProcessor.cpp:173-194 | A body is read past its first line exactly if that line is the boundary's; otherwise nothing in it is ever delivered |
| `MultipartRoundTrip.TilesCover` | lib/psychic_http/src/MultipartProcessor.cpp:126-143 | The upload calls of a file join to its content, each starts where the last ended, all but the last are full, and exactly the last is final |
| `MultipartRoundTrip.FieldUnchanged` | lib/psychic_http/src/MultipartProcessor.cpp:285-287 | A field arrives as sent if and only if it has no NUL, no '+' and no percent escape |
| `Endpoints.DownIsLarger` | lib/autolee_logic/endpoint_math.h:28-43 | DOWN is the larger of the requested endpoint and UP plus the guard, and both endpoints are the raw ones moved by the stored offsets |
| `Endpoints.Fixpoint` | lib/autolee_logic/endpoint_math.h:28-43 | Recomputing from the stored offsets changes nothing |
| `Endpoints.OffsetsStayInRange` | lib/autolee_logic/endpoint_math.h:33-42 | The DOWN offset stays in range for every request if and only if the raw travel is at least the guard |
| `Endpoints.FlipsAlternate` | main/motion/motion.cpp:78-82 | From the first flip on, targets strictly alternate between the two endpoints |
| `Endpoints.EditKeepsSide` | lib/autolee_logic/endpoint_math.h:48-50 | An edit leaves a target in flight on its side if and only if its endpoint did not move outwards by half the new travel or more (more than half, for DOWN); one that moves inwards never flips it |
| `StallMonitor.StallCounter.Update` | lib/autolee_logic/stall_monitor.h:30-42 | One reading moves the count as specified, neither 8-bit counter wraps, and a jam is reported exactly on a high reading that completes it |
| `StallMonitor.JamNeedsHighs` | lib/autolee_logic/stall_monitor.h:30-42 | Over any reading sequence a jam needs at least the configured number of high readings, the last one among them |
| `StallMonitor.LowsTakeOff` | lib/autolee_logic/stall_monitor.h:36-40 | k times as many low readings as decay takes take exactly k off the count, or all there was, whatever was counted before |
| `StallMonitor.HighsAddUp` | lib/autolee_logic/stall_monitor.h:30-42 | High readings in a row add up one by one, to the margin beyond what is needed |
| `StallMonitor.SpikesNeverJam` | lib/autolee_logic/stall_monitor.h:30-42 | Single spikes with enough low readings between any two of them never jam, however many |
| `StallMonitor.EnoughHighsJam` | lib/autolee_logic/stall_monitor.h:30-42 | Once highs minus lows divided by the decay reach the configured number, a jam has been raised |
| `StallMonitor.StatsMean` | lib/autolee_logic/stroke_stats.h:14-46 | A stroke's statistics bound all its readings off the floor, are attained, and tell whether any were on the floor |
| `AutoSg.AutoSg.StrokeFinished` | lib/autolee_logic/auto_sg.h:68-92 | A stroke is discarded, added, or closes its profile, as specified, and the result says which |
| `AutoSg.DoneAfterEveryStroke` | lib/autolee_logic/auto_sg.h:68-92 | Done is reported exactly at the last of (strokes + 1) strokes per profile, never earlier or later |
| `AutoSg.TripsHold` | lib/autolee_logic/auto_sg.h:24-106 | When done, every profile has a trip no counted stroke exceeds, at the floor exactly if marked floor-only |
| `AutoSg.TripsTight` | lib/autolee_logic/auto_sg.h:101-106 | When Auto SG is done the trip of a profile off the floor is exactly the margin above the largest statistic that counted for it, as far as the range goes |
| `AutoSg.FailsExactly` | lib/autolee_logic/auto_sg.h:77-80 | While measuring, Auto SG fails exactly when a profile has had its strokes and none of those that count was read at all |
| `AutoSg.StrokeShown` | lib/autolee_logic/auto_sg.h:95-97 | The stroke number shown is the number of strokes that count so far |
| `AutoSg.TripNeverFires` | lib/autolee_logic/auto_sg.h:101-106 | No reading of a stroke a trip was measured on ever adds to the jam count |
| `StallSearch.MoveUntilStall` | main/motion/motion.cpp:802-898 | The polling loop with its counters and accumulator returns what the search specification says |
| `StallSearch.NeverBlind` | main/motion/motion.cpp:852-890 | From when the early window arms, any 2N-2 consecutive low readings end the search with a hit, also across the hand-over to the dynamic trip (two as shipped) |
| `StallSearch.HitIsConfirmed` | lib/autolee_logic/calibration.h:80-95 | A hit is N consecutive readings, up to the one that ended the search, at or below the trip in force |
| `StallSearch.NoFalseStop` | main/motion/motion.cpp:802-898 | If, but for the first 50 ms or 200 steps, no reading falls to the floor before the baseline is complete and none drops to 235/256 of its mean after that, the move runs out without a hit |
| `StallSearch.SteadyNotFound` | main/motion/motion.cpp:802-898 | Readings that never change, above the floor, end no search |
| `StallSearch.DropFound` | main/motion/motion.cpp:852-890 | Once the baseline is complete, N readings in a row at or below 235/256 of its mean, or at the floor, end the search with a hit |
| `StallSearch.AbortedExactly` | main/motion/motion.cpp:826-839 | A search is aborted exactly if an abort is asked for before it has ended |
| `SettingsBlob.ImageRead` | main/settings_blob.h:193-217 | Writing the current layout and reading it back yields every field again, two's complement included |
| `SettingsBlob.MigrationSound` | main/settings_blob.h:249-578 | A blob is accepted exactly if its length and its own version's validator accept it; the result passes the current validator and carries every old field over unchanged |
| `SettingsBlob.WrittenReadBack` | main/settings_blob.h:517-578 | What is written in the current layout parses back to itself if valid and is rejected otherwise |
| `SettingsLayout.ImageIsPacked` | main/settings_blob.h:84-217 | The image is the fields of the current structure packed in their order, little-endian, and the structures of the versions before are its first 36, 52 and 56 bytes |
| `SettingsLayout.EveryVersionRead` | main/settings_blob.h:84-217 | The packed structure of every version is read as what it holds |
| `SettingsLayout.PackedAccepted` | main/settings_blob.h:249-578 | A packed structure of any version is accepted if and only if it names its own version and every value is in its numeric range |
| `SettingsStore.SettingsStorage.Apply` | main/settings_store.cpp:77-111 | Every persisted field goes live, trips only at the compiled speeds, and restored endpoints come with a stale position |
| `SettingsStore.SettingsStorage.ApplyCompiledDefaults` | main/settings_store.cpp:127-158 | Every persisted field takes its compiled-in value and the machine is uncalibrated and stale |
| `SettingsStore.SettingsStorage.LoadSettings` | main/settings_store.cpp:205-319 | Boot: restored or defaulted, boot counted, endpoints recomputed, baseline taken, written back if the flash allows |
| `SettingsStore.SettingsStorage.TickSettings` | main/settings_store.cpp:321-329 | Throttled on a wrapping clock; writes exactly what changed, and moves the baseline only on success |
| `SettingsStore.SettingsStorage.SaveSettings` | main/settings_store.cpp:331-336 | The unthrottled save |
| `SettingsStore.SettingsStorage.ResetSettings` | main/settings_store.cpp:338-373 | Defaults live, flash erased, or overwritten if erasing fails, or left for the next tick |
| `PowerCut.WrittenRestored` | main/settings_store.cpp:44-111 | A written state is what a reboot restores if and only if it is valid and its offsets are settled |
| `PowerCut.AlwaysPersisted` | main/settings_store.cpp:321-373 | Over every sequence of live changes within the fields' widths, ticks, saves and resets with arbitrary failures, a reboot would restore exactly what was last saved if and only if that is valid with its offsets settled |
| `PowerCut.BootSavable` | main/settings_store.cpp:205-319 | Whatever bytes are on flash, the state a boot comes up with can be saved and restored again |
| `PowerCut.BootPersistsIffWritten` | main/settings_store.cpp:205-318 | After a boot whose write succeeded the store is in step with the flash; after one whose write failed it is not, if the flash was readable, and only by the stated coincidence if it was not |
| `PowerCut.FailedBootWriteNotRetried` | main/settings_store.cpp:313-329 | After a boot's failed write no tick and no save writes anything while the live state stays as booted |
| `PowerCut.ChangesSaved` | main/settings_store.cpp:321-336 | A save that can write, and a tick that is due and can, leave a flash that restores the live state; a tick that is not due touches nothing |
| `PowerCut.RebootRestores` | main/settings_store.cpp:205-319 | A reboot brings back exactly what was last saved, one boot further on |
| `PowerCut.PowerCycleKeeps` | main/settings_store.cpp:44-111 | The machine that boots from what was written has every setting and counter of the one that wrote it, one boot further on, but not its position |
| `PowerCut.NothingTrusted` | main/settings_store.cpp:127-158 | Without a blob to trust the machine comes up as it was made, field by field |
| `PowerCut.BootRefusesStart` | main/settings_store.cpp:104-109 | After any boot, on any flash, the press is idle and starting is refused |
| `PowerCut.OldTripsDropped` | main/settings_blob.h:387-389 | Any blob from before version 4 comes up with every trip 0, so the start gate refuses |
| `PowerCut.TripsHoldAtTheirSpeed` | main/settings_store.cpp:87-92 | A stored trip comes back exactly at the speed it was stored with; at any other it is 0 |
| `PowerCut.CalibrationSurvives` | lib/autolee_logic/calibration.h:74-76 | A saved calibration survives a reboot if and only if its travel is more than twice the guard and within the search distance |
| `MotionState.SharedMotion.RecomputeEffectiveEndpoints` | main/motion/motion.cpp:224-242 | The geometry becomes its recomputed form in one transaction |
| `Referencing.AlwaysFollows` | main/motion/motion.cpp:224-242 | In any run from any boot the effective endpoints of a calibrated machine are the raw ones moved by the offsets it keeps, at least the guard apart |
| `Referencing.EditMoves` | main/net/web_server.cpp:1331-1342 | An offset edit moves its own endpoint by what it asks for and not the other if and only if its limits and the guard leave room |
| `Referencing.UpEditUndone` | main/net/web_server.cpp:1331-1342 | The reverse of an UP edit restores the machine if and only if its offset returns and DOWN was not pushed, or falls back to its limit |
| `Referencing.DownEditUndone` | main/net/web_server.cpp:1331-1342 | The same for DOWN, which also falls back to the guard |
| `Referencing.HomeReferences` | main/motion/motion.cpp:731-753 | A home that completes makes the stop 0, backs off it and parks at UP, whose offset it keeps; one that finds nothing moves only the stale flag |
| `Referencing.CalibrationStores` | main/motion/motion.cpp:924-1092 | A calibration succeeds exactly if every search found its stop, none was aborted and the travel is at least twice the guard; what it stores then, and that a failure leaves the press uncalibrated and stale |
| `Referencing.MovesReverse` | main/motion/motion.cpp:924-1092 | The last relative move of a calibration is the last of those it goes through, and every step back is away from the stop just found |
| `MotorFsm.JamThenHome` | lib/autolee_logic/motor_fsm.h:40-85 | Over any events a jammed machine runs again only after it has entered a home |
| `Press.MotionSupervisor.EndAutoSg` | main/motion/motion.cpp:258-271 | Measuring ends, the operator's profile is queued, and only on success the measured trips and their current go live |
| `Press.MotionSupervisor.AutoSgStrokeDone` | main/motion/motion.cpp:291-324 | The finished stroke is handed over, and the run goes on, changes profile, completes or fails |
| `Press.MotionSupervisor.StartAutoSg` | main/motion/motion.cpp:326-354 | Auto SG takes over at the first profile and runs, or undoes itself |
| `Press.MotionSupervisor.StartRunBetweenEndpoints` | main/motion/motion.cpp:359-426 | All refusals, the transition, and the first stroke at the active profile's speed |
| `Press.MotionSupervisor.RequestGracefulStop` | main/motion/motion.cpp:436-459 | A running press heads for UP, its batch ended, Auto SG ended, the queued profile landed; anything else is left alone |
| `Press.MotionSupervisor.HandleMotion` | main/motion/motion.cpp:461-691 | One pump iteration: time-out, finished stroke, monitoring, or stopping |
| `Press.MotionSupervisor.StrokeArrived` | main/motion/motion.cpp:475-548 | A finished stroke is counted, completes a batch, feeds Auto SG, stops or turns |
| `Press.MotionSupervisor.Monitor` | main/motion/motion.cpp:550-664 | Blanking, work zone, deceleration carry-through, statistics, jam count and jam, in this order |
| `Press.MotionSupervisor.SafeCreepHome` | main/motion/motion.cpp:705-785 | A home from the transition that enters it to the one that leaves it |
| `Press.MotionSupervisor.CalibrateEndpointsSensorless` | main/motion/motion.cpp:924-1092 | A calibration with every early exit, and what it stores on success |
| `Press.MotionSupervisor.SetActiveProfile` | main/motion/motion.cpp:900-922 | Ignored while Auto SG measures, queued while running, live otherwise |
| `MotionCmd.MotionCommands.ReplayToggles` | main/motion/motion_cmd.cpp:156-176 | Every queued toggle in order up to the first refusal |
| `MotionCmd.MotionCommands.ProcessPendingCommands` | main/motion/motion_cmd.cpp:119-293 | All requests consumed, each command behind its gate in this order, then the store's tick |
| `Machine.PumpIteration` | main/app_main.cpp:90-96 | One iteration of the outer loop is one pump event of the run model |
| `Machine.Boot` | main/app_main.cpp:259-286 | Constructing and loading is the reboot event of the run model |
| `Reachable.BootInv` | main/settings_store.cpp:205-319 | Every boot, on any flash content, readable or not, written or not, meets what the theorems about runs start from |
| `Reachable.EveryRun` | main/app_main.cpp:90-96 | Every state of every run from every boot satisfies the invariant, the jam count's and the readings' records, every trip set in ordinary runs unless one was cleared in one, and the settings' bounds |
| `Runs.AlwaysInv` | main/motion/motion.cpp:258-691 | At every boundary between events, under any interleaving: running means calibrated, referenced and driven to the current target at the active speed; calibrated endpoints are at least the guard apart; batch, Auto SG and queued profile exist only while running; Auto SG measures exactly the active profile outside any batch |
| `StrokeTimes.FirstStroke` | main/motion/motion.cpp:408-425 | In any run, whoever begins a run of the press, its first stroke heads for an endpoint the press is not at already, and from in between for the nearer one |
| `StrokeTimes.AlwaysClocked` | main/motion/motion.cpp:475-547 | In any run a running press keeps the clock of the turn or the start that began its stroke |
| `StrokeTimes.ReadingsTaken` | main/motion/motion.cpp:550-585 | In any run a reading enters the stroke's statistics exactly if the stroke began 98, 117 or 130 ms ago or earlier, by profile, the press is not in its work zone on the way down, and it is 640, 1062 or 1500 steps from its target or a jam is suspected |
| `RunEnds.StopsHeadUp` | main/motion/motion.cpp:436-459 | In any run whatever makes a running press stop heads it for UP, ends its batch and Auto SG, and times the stop from that moment |
| `RunEnds.StopSettles` | main/motion/motion.cpp:667-690 | A stopping press goes on stopping, whatever is asked and edited, until the first iteration that finds it at rest, within 10 steps of UP or stopping for more than 8 s; that one leaves it idle and everything else as it was |
| `RunEnds.JamBacksOff` | main/motion/motion.cpp:617-660 | In any run a jam backs the press off by its whole length away from where the stroke was heading; the batch is over, the operator's profile is active, no trip changes, and the position is stale exactly if the stop could not be waited for |
| `RunEnds.AutoTimesOut` | main/motion/motion.cpp:467-472 | In any run Auto SG survives an iteration exactly if it has measured its profile for at most 120 s and no stroke that ends it was finished; a time-out changes no trip and heads for UP |
| `Asked.ProfileAsAsked` | main/motion/motion.cpp:900-922 | In any run the operator's profile is the one last asked for while Auto SG did not measure, through jams, stops, homes and Auto SG, and is active whenever the press is not running |
| `Asked.QueuedLands` | main/motion/motion.cpp:540-547 | A profile asked for during a stroke takes effect at the next turn, with its speed |
| `Asked.SettingsAsAsked` | main/motion/motion_cmd.cpp:119-293 | Over any run without a reset run current, work zone and batch target become exactly what was asked for on the way |
| `Asked.TripsAsAsked` | main/net/web_server.cpp:1347-1392 | Over any run without a reset and without a completed Auto SG every profile's trip is the one last set for it, within 0 to 1023 |
| `Asked.SoleRequest` | main/motion/motion_cmd.cpp:119-293 | A pass without a request does nothing, one with a single request does that where the state of the press allows it |
| `Asked.SoleSetting` | main/motion/motion.cpp:900-922 | A profile alone is queued during an ordinary run, ignored by Auto SG and out of range, and otherwise active at once with its speed; a current alone is clamped |
| `Strokes.StrokesAlternate` | main/motion/motion.cpp:475-548 | Over any uninterrupted run of the press without an endpoint edit the side it heads for alternates exactly with the turns, and after the first turn its target is that endpoint |
| `Strokes.TurnsHeadBack` | main/motion/motion.cpp:540-547 | In every run, whatever is edited in between, each turn heads for the other endpoint |
| `Strokes.EditKeepsHeading` | lib/autolee_logic/endpoint_math.h:48-50 | An edit during a stroke leaves a running press heading for its endpoint exactly under that condition |
| `Safety.JamRecovery` | main/motion/motion.cpp:359-390 | In every run, reboots included, between a jam and any later running state a home or calibration was carried out whose searches found their stops, not aborted |
| `Safety.JamNoDeadEnd` | main/motion/motion.cpp:705-785 | From a jam, a home that completes and one tap on the run button run the press again |
| `Safety.BootRecovery` | main/settings_store.cpp:104-109 | The same between any reboot and any later running state |
| `Safety.FailedSearchRefuses` | main/motion/motion.cpp:961-977 | A home or calibration carried out that failed or was aborted always ends idle, stale, with starting refused, also on a press that was referenced before |
| `Safety.GatesRefineActions` | lib/autolee_logic/command_gate.h:52-88 | In every reachable state each start, Auto SG, stop and batch gate opens if and only if its action would enter its state |
| `Safety.SearchGatesRefineActions` | lib/autolee_logic/command_gate.h:90-98 | A refused search changes nothing at all; one carried out ends idle, referenced exactly if it completed |
| `Safety.RunsBeginGuarded` | main/motion/motion.cpp:359-390 | A run begins only idle, calibrated, referenced and with every trip set |
| `JamDetection.GuardedExactly` | main/net/web_server.cpp:1347-1392 | In any run of the machine every trip is set throughout its ordinary runs if and only if no event sets a trip to 0 during one |
| `JamDetection.AlwaysTracked` | main/motion/motion.cpp:550-662 | In any run the stall counter of a running press is the tally of exactly the readings counted on the current stroke since it began or left the work zone, none of which has raised a jam |
| `JamDetection.JamFromEvidence` | main/motion/motion.cpp:550-662 | In any run the press stalls exactly on a counted reading that completes a jam over those of its stroke: never without the configured number of them above the trip in force, never on spikes with enough low readings between any two of them, always once these exceed the decays the others allow by that number, and never under Auto SG |
| `Safety.ToggleReplay` | main/motion/motion_cmd.cpp:156-176 | Breaking off at the first refused toggle ends in the state that replaying all of them would |
| `Safety.TwoTaps` | main/motion/motion_cmd.cpp:21-24 | Two taps in one pass are a start and a stop |
| `Measuring.AlwaysRecorded` | main/motion/motion.cpp:475-548 | In every run the statistics handed to Auto SG are those of readings taken while the profile it measures was active, since the last turn |
| `Measuring.AutoSgMeasures` | main/motion/motion.cpp:291-324 | Auto SG completes after exactly 39 strokes; then every profile has a trip no counted reading exceeds, each taken on that profile, and exactly one above the largest of them, at the floor exactly if it never left it; and the operator's profile is back |
| `Measuring.HandledGivesBack` | main/motion/motion.cpp:258-287 | However a pump iteration ends Auto SG, the operator's profile is active again and, unless it completed, no trip changed |
| `Measuring.HandledKeepsTrips` | main/motion/motion.cpp:461-691 | Without Auto SG no pump iteration changes a trip |
| `Measuring.AutoStartSaves` | main/motion/motion.cpp:326-354 | Auto SG takes over from the operator's profile, or refuses and leaves every profile setting as it was |
| `Measuring.OperatorsProfileReturns` | main/motion/motion.cpp:258-354 | Over any run from Auto SG being active to its end, the same operator's profile is kept and given back, unless a command of that pass chooses another |
| `Conservation.StrokesConserved` | main/motion/motion.cpp:477-515 | Over any run without a reset the lifetime count grows, modulo 2^32, by exactly the completed DOWN strokes outside Auto SG |
| `Conservation.BatchExact` | main/motion/motion.cpp:506-524 | While a batch lasts its count is exactly the strokes completed since, whatever requests the gate refuses; the stroke that completes it brings them to exactly the target, ends it and leaves the press stopping |
| `Conservation.RunningArmsNothing` | main/motion/motion_cmd.cpp:119-293 | No request arms another batch on a press that is running or stopping |
| `Statistics.CountsConserved` | main/motion/motion.cpp:628-640 | Over any run without a reset the counts of jams, calibrations and updates grow, modulo 2^16, by exactly those that happen |
| `Statistics.TimesConserved` | main/motion/motion.cpp:483-505 | The total cycle time grows, modulo 2^32, by the time of every stroke completed, from the turn or start that began it, and the longest is the longest of them |
| `Statistics.DisplayCounts` | main/motion/motion.cpp:492-496 | The display counter counts the same strokes up to 9999, where it stops |
| `SystemPowerCut.PowerCutRestores` | main/settings_store.cpp:205-373 | After any run of the whole machine, with any read, write or erase of a boot, tick, save or reset failing on the way, a boot brings back, one boot further on, what was last saved when flash and store were last in step, or the defaults where the endpoints saved do not survive |
| `SystemPowerCut.TravelDecides` | main/settings_blob.h:249-273 | The endpoints of a calibrated machine survive if and only if DOWN is within the search distance and the travel more than twice the guard and within that distance |
| `SystemPowerCut.HomeMovesUp` | main/motion/motion.cpp:705-785 | Endpoints restored with UP elsewhere than at 0 survive a reboot after a home if and only if DOWN alone is more than twice the guard and within the search distance |
| `SystemPowerCut.WritingBootsSync` | main/settings_store.cpp:300-318 | If no boot on the way failed to write, flash and store are in step at every moment |
| `SystemPowerCut.LiveStateSaved` | main/settings_store.cpp:321-336 | Over any run, while flash and store are in step: a pump iteration whose tick is due and can write leaves a flash that restores the very state it ends in, so does a finished update, and any other edit leaves both alone; a due tick that fails is due again one interval later |
| `SystemPowerCut.ResetSticks` | main/settings_store.cpp:338-373 | A reset brings every setting back to the compiled-in one, live and, unless both the erase and the overwriting write fail, for every boot to come |
| `SystemPowerCut.BootKept` | main/settings_store.cpp:205-319 | Every boot, whatever is on flash, brings up settings within their bounds, and one that can write begins such a run in step |
| `SystemPowerCut.AutoSgPowerCut` | main/motion/motion.cpp:326-338 | After a power cut while Auto SG measures, and a save just before it, the profile being measured is active, so the operator's if and only if it is that one; the compiled-in one where the endpoints do not survive |

## Left out

- IEEE rounding in the ramp: floats are reals; `std::sqrt` is a parameter with its defining property.
- 32-bit overflow of positions, endpoints and offsets, and of `size_t` sums over 4 GiB: those integers are unbounded. The wrapping clock, the wrapping lifetime counters and the parser's 32-bit `find` arithmetic are modelled.
- Task interleaving inside one pump iteration, the lock, and a write seen between an offset edit and its recomputation: events are atomic. One clock reading serves a whole iteration.
- Semaphores, RMT and PCNT timing in `move_task`, `moveTo` and `forceStop`: the stepper is what it was last told and what it is sensed to do.
- The TMC5160 registers and run-current writes, the median filter in front of StallGuard readings: a reading is any value of the register.
- `Multipart.Processor.Process`: takes the boundary as given and bodies handed over as C strings; extracting the boundary from the Content-Type header and the socket loop of the other `process` are not modelled. A replay that never ends and a byte stored through the freed item buffer are the same fault state.
- `MultipartRoundTrip.RoundTrip`: contents that hold the delimiter itself, names with ';' or line breaks, bodies of 1 GiB and more, and requests without memory for an item buffer are not covered.
- `Measuring.AlwaysRecorded`: StallGuard readings are at most 1023.
- `Machine.Boot`: the other state initialised at boot is not part of the model.
- The copy loops of `migrate_v*` and `peekBlobVersion` are part of the parsing function, on values.
- Batch clear, offset, trip and work-zone edits are functions on the state, without the request parsing in front of them.
- Log text, LVGL refreshes, telemetry, WiFi, OTA, authentication and HTTP routing.

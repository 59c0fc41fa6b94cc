# Dynamic weather, recording counters and sensor synchronisation of a CARLA sequence generator

This project models, in Dafny, three pieces of logic from a generator of
driving sequences in the CARLA simulator.

- **The dynamic weather** (`weather.dfy`, module `DynamicWeather`). A `Weather`
  object drives a CARLA weather record over a five-hour cycle of 18000 s.
  - The sun azimuth is `t*360/18000`.
  - The sun altitude is `30*sin(x)+15`. The sine comes from the host's math
    library, so it is a parameter `sinTurns`.
  - Five parameters follow a schedule. It has 30 closed windows of a clear,
    rainy or foggy regime, and 29 open 10-second cross-fades between them.
  - Six more parameters are set once, by the constructor.

  The update is modelled literally, as its chain of range tests (`ChainWeather`,
  `Weather.UpdateWeatherParameters`). It is proved equal, for every real `t`, to
  an independent table of the 59 spans (`ScheduleAt`). The table's spans are
  proved to be pairwise disjoint and to cover `[0, 18000]`. They are also proved
  to carry the regime values, and to blend linearly between the neighbouring
  regimes.
- **The recording loop of `generate_sequence.py`** (`sequence.dfy`, module
  `GenerateSequence`).
  - It covers the effective frequency, the clamp of the start timestamp, and
    the tick counts.
  - It covers the discard phase.
  - It covers the recording loop's counters:
    - a frame is saved every `k = hz/fps` ticks;
    - the frame goes into folder `1 + n/1000`;
    - the run stops when the start timestamp plus the frames saved would
      exceed 18000.
    - This stop test follows the clock only at one frame per second with no
      discard phase (`StopTestCountsFrames`).
  - With a dynamic weather, it covers the weather log and the city-lights rule.
- **The ego vehicle** (`ego.dfy`, module `EgoVehicles`).
  - The single-instance guard of its constructor.
  - The four sensor queues that `create_queue` registers, in order.
  - `get_sync_data`/`_retrieve_data`, which drain each queue up to the record
    of the current frame.

The branch chain leaves the weather unchanged for times outside `[0, 18000]`.
Inside that range the 30 windows and 29 fades leave no instant uncovered, so
the "unchanged" case happens only outside the cycle (`ChainDefinedExactly`).

The folder counter is incremented on the save tick that brings the frame
count to a multiple of 1000, before that frame is written. Folder 1 therefore
holds frames 1-999, and each later folder holds 1000 frames (`FolderSizes`).

Times are exact reals, and Python's float `t % 10` is `t - 10*floor(t/10)`.
The model's integers are unbounded. The source's integers are Python integers,
so nothing wraps.

## Model

| member | source | states |
|---|---|---|
| DynamicWeather.ChainWeather | code/dynamic_weather.py:79-149 | the branch chain of the update, in source order: the values of the first firing branch, or none; its meaning is stated by ChainMatchesSchedule and ChainDefinedExactly |
| DynamicWeather.NextParams | code/dynamic_weather.py:79-149 | the five parameters after an update: the firing branch's values, or the previous ones when no branch fires (the chain has no else) |
| DynamicWeather.Mod10 | code/dynamic_weather.py:105-149 | `t % 10` lies in [0, 10) and `t` minus it is a multiple of 10 |
| DynamicWeather.WindowsWellSpaced | code/dynamic_weather.py:79-101 | the 30 authored windows run from 0 to 18000, in time order, each ending on a multiple of 10 and followed by the next one 10 s later |
| DynamicWeather.WindowsOrdered | code/dynamic_weather.py:79-101 | every window is non-empty and ends on a multiple of 10 |
| DynamicWeather.WindowsAdjacent | code/dynamic_weather.py:79-101 | each window starts 10 s after the previous one ends |
| DynamicWeather.SpansWellFormed | code/dynamic_weather.py:79-149 | interleaving windows with fades gives 2n-1 well-formed spans from the first start to the last end |
| DynamicWeather.SpansShape | code/dynamic_weather.py:79-149 | even spans are steady windows, odd spans are 10 s fades starting on a multiple of 10 |
| DynamicWeather.SpansAdjacent | code/dynamic_weather.py:79-149 | each span ends where the next one starts |
| DynamicWeather.SpansFadesJoinNeighbours | code/dynamic_weather.py:103-149 | every fade goes from the regime of the window on its left to the regime of the window on its right |
| DynamicWeather.ScheduleWellFormed | code/dynamic_weather.py:79-149 | the schedule has 59 well-formed spans from 0 to 18000 |
| DynamicWeather.SpansOrdered | code/dynamic_weather.py:79-149 | an instant of an earlier span is before any instant of a later span |
| DynamicWeather.SpansDisjoint | code/dynamic_weather.py:79-149 | no instant lies in two spans |
| DynamicWeather.SpansCover | code/dynamic_weather.py:79-149 | every instant between the first start and the end of an even span lies in some span up to it |
| DynamicWeather.SpansBounds | code/dynamic_weather.py:79-149 | an instant inside a span lies between the schedule's start and end |
| DynamicWeather.LookupFirst | code/dynamic_weather.py:79-149 | the table lookup returns the value of the first span containing t |
| DynamicWeather.LookupMiss | code/dynamic_weather.py:79-149 | the table lookup returns nothing when no span contains t |
| DynamicWeather.ScheduleCovers | code/dynamic_weather.py:79-149 | every t in [0, 18000] lies in exactly one of the 59 spans |
| DynamicWeather.ScheduleInSpan | code/dynamic_weather.py:79-149 | the schedule at t is the value of the span containing t |
| DynamicWeather.ScheduleDefinedExactly | code/dynamic_weather.py:79-149 | the schedule has a value exactly on [0, 18000] |
| DynamicWeather.Mod10InFade | code/dynamic_weather.py:103-149 | inside a fade (X, X+10) with X a multiple of 10, `t % 10` is `t - X` |
| DynamicWeather.ChainOnWindowFirstThird | code/dynamic_weather.py:79-101 | in windows 0-9 the branch chain assigns that window's regime values |
| DynamicWeather.ChainOnWindowSecondThird | code/dynamic_weather.py:79-101 | in windows 10-19 the branch chain assigns that window's regime values |
| DynamicWeather.ChainOnWindowLastThird | code/dynamic_weather.py:79-101 | in windows 20-29 the branch chain assigns that window's regime values |
| DynamicWeather.ChainOnFadeFirstThird | code/dynamic_weather.py:103-149 | in the fades after windows 0-9 the branch chain assigns the blend between the neighbouring regimes |
| DynamicWeather.ChainOnFadeSecondThird | code/dynamic_weather.py:103-149 | in the fades after windows 10-19 the branch chain assigns the blend between the neighbouring regimes |
| DynamicWeather.ChainOnFadeLastThird | code/dynamic_weather.py:103-149 | in the fades after windows 20-28 the branch chain assigns the blend between the neighbouring regimes |
| DynamicWeather.ChainInSpan | code/dynamic_weather.py:79-149 | on any span of the table, the branch chain assigns that span's value |
| DynamicWeather.ChainMatchesSchedule | code/dynamic_weather.py:79-149 | for every real t the branch chain and the table agree, including the times where neither assigns |
| DynamicWeather.ChainDefinedExactly | code/dynamic_weather.py:79-149 | some branch fires exactly when t is in [0, 18000] |
| DynamicWeather.SteadyWindowValues | code/dynamic_weather.py:60-101 | clear windows give (5, 0, 0, 10, 2), rainy (50, 90, 80, 100, 7), foggy (50, 0, 0, 10, 70) |
| DynamicWeather.BlendBetween | code/dynamic_weather.py:103-149 | a blend with m in [0, 10] lies between the two regimes, parameter by parameter |
| DynamicWeather.FadeValues | code/dynamic_weather.py:103-149 | in a fade each parameter is `from + (to-from)*(t-X)/10` and lies between the two regime values |
| DynamicWeather.ChainAt605 | code/dynamic_weather.py:103-109 | at t = 605 the parameters are (27.5, 45, 40, 55, 4.5) |
| DynamicWeather.NextOutsideKeeps | code/dynamic_weather.py:54-149 | outside [0, 18000] the five parameters keep their previous values |
| DynamicWeather.NextDependsOnTimeOnly | code/dynamic_weather.py:50-149 | inside [0, 18000] the parameters after an update depend on t alone, and updating twice at t equals updating once |
| DynamicWeather.Azimuth | code/dynamic_weather.py:25-26 | the azimuth `t*360/18000`, which lies in [0, 360] over the cycle |
| DynamicWeather.AzimuthEnds | code/dynamic_weather.py:25-26 | the azimuth is 0 at t = 0 and 360 at t = 18000 |
| DynamicWeather.AzimuthIncreasing | code/dynamic_weather.py:25-26 | the azimuth is strictly increasing in t |
| DynamicWeather.Frac | code/dynamic_weather.py:29-30 | the remainder of the sun angle by a full turn lies in [0, 1) turn |
| DynamicWeather.FracShift | code/dynamic_weather.py:29-30 | that remainder is the same one turn later |
| DynamicWeather.Phase | code/dynamic_weather.py:29-30 | the sun angle `3/2*pi + 2*pi*t/18000` reduced modulo a full turn, in turns, so in [0, 1) |
| DynamicWeather.Altitude | code/dynamic_weather.py:28-31 | the altitude `30*sin(x)+15` is below 1 degree exactly when the sine is below -7/15 |
| DynamicWeather.AltitudePeriodic | code/dynamic_weather.py:28-31 | the altitude repeats every 18000 s, whatever the sine |
| DynamicWeather.Sun.constructor | code/dynamic_weather.py:16-18 | a new sun is placed at time t |
| DynamicWeather.Sun.Tick | code/dynamic_weather.py:20-23 | the sun's azimuth and altitude become those of time t |
| DynamicWeather.WeatherParameters.SetParams | code/dynamic_weather.py:79-85 | one branch overwrites the five scheduled parameters and leaves the fixed ones and the sun angles alone |
| DynamicWeather.Weather.constructor | code/dynamic_weather.py:38-48 | the new weather places the sun at t, applies the schedule at t and sets the six fixed parameters (0.75, 0.1, 0.0, 1.0, 0.03, 0.0331) |
| DynamicWeather.Weather.Tick | code/dynamic_weather.py:50-52 | the sun moves to t, its angles are copied into the record, the five parameters follow the schedule at t (or stay), and the fixed ones are untouched |
| DynamicWeather.Weather.UpdateWeatherParameters | code/dynamic_weather.py:54-149 | copies the sun angles, then overwrites the five parameters with the first firing branch's values, or keeps them |
| GenerateSequence.EffectiveHz | code/generate_sequence.py:37-39 | the frequency is the larger of the requested rate and the frame rate |
| GenerateSequence.ClampTimestamp | code/generate_sequence.py:73-77 | the start timestamp ends in [0, 16199] and an in-range draw is kept |
| GenerateSequence.ClampIsNearest | code/generate_sequence.py:73-77 | the clamped timestamp is the point of [0, 16199] nearest to the draw |
| GenerateSequence.Trunc | code/generate_sequence.py:111-112 | `int()` truncates toward zero |
| GenerateSequence.TicksToDiscard | code/generate_sequence.py:111 | the discard count `int(discard_duration * hz)`; bounded by TicksToDiscardBounds |
| GenerateSequence.TicksToRecord | code/generate_sequence.py:112 | the record count `int(nb_frames * hz / fps)`; equal to nbFrames * k by TicksToRecordIntegral |
| GenerateSequence.TicksToDiscardBounds | code/generate_sequence.py:111 | the discard count is the whole part of duration times frequency |
| GenerateSequence.TicksToRecordIntegral | code/generate_sequence.py:112 | with hz = k * fps the recording runs exactly nbFrames * k ticks |
| GenerateSequence.LightsOn | code/generate_sequence.py:177-180 | the city lights are on exactly when the sun altitude is below 1 degree (also lines 160-163) |
| GenerateSequence.FolderOf | code/generate_sequence.py:193-195 | the folder of frame n, `1 + n/1000`, which the folder counter keeps (CountTick, RecordLoop) |
| GenerateSequence.FolderSizes | code/generate_sequence.py:193-195 | folder 1 holds frames 1-999, and every later folder holds 1000 frames |
| GenerateSequence.Elapsed | code/generate_sequence.py:173 | the elapsed time after n ticks, adding 1/hz per tick; its closed form is ElapsedClosedForm |
| GenerateSequence.ElapsedClosedForm | code/generate_sequence.py:173 | n ticks of 1/hz add up to n/hz seconds |
| GenerateSequence.FrameTimeClosedForm | code/generate_sequence.py:172-174 | frame n is taken (n-1)/fps + 1/hz seconds into the recording |
| GenerateSequence.StopTestCountsFrames | code/generate_sequence.py:190-191 | the stop test compares the start timestamp plus a frame count with 18000: at 10 Hz, 1 fps, 3 s discarded and start 16199, frame 1801 passes it although it is taken at 18002.1 s |
| GenerateSequence.SavedFromCounter | code/generate_sequence.py:183-197 | after a number of ticks the frames saved are ticks/k rounded up |
| GenerateSequence.SavedAtEnd | code/generate_sequence.py:169-197 | a recording that runs nbFrames * k ticks saves exactly nbFrames frames |
| GenerateSequence.UpdateWeather | code/generate_sequence.py:172-180 | the weather follows time t: the sun's azimuth and altitude and their copies in the record, the five parameters updated as by the branch chain (the schedule inside the cycle, unchanged outside it), the fixed parameters kept; the lights are on exactly when the sun is below 1 degree |
| GenerateSequence.DiscardLoop | code/generate_sequence.py:149-166 | runs the requested ticks, or stops as soon as the clock would pass 18000; the weather and the lights follow the clock of the last completed tick, and without a completed tick the weather record, the sun and the lights are unchanged |
| GenerateSequence.CountTick | code/generate_sequence.py:182-197 | a frame is saved exactly on ticks that are multiples of k; the run stops exactly when the start timestamp plus the frames saved would exceed 18000; otherwise the counters and the folder stay consistent |
| GenerateSequence.LoopExit | code/generate_sequence.py:169-191 | a stopped run broke on a save tick before its last tick; a completed one saved nbFrames frames |
| GenerateSequence.SaveFrame | code/generate_sequence.py:203-215 | records the frame's folder and, with a dynamic weather, the record's current values as the frame's entry (the weather of its tick) |
| GenerateSequence.RecordTick | code/generate_sequence.py:169-215 | one pass of the loop body: the weather record moves to the new time (sun angles of that time, parameters as by the branch chain), the log gains the current record's values exactly when a frame is saved, and the counters, folder and frames stay consistent; a stopping pass writes nothing |
| GenerateSequence.RecordLoop | code/generate_sequence.py:169-218 | saves frames 1..n (n the ticks over k, rounded up; at most nbFrames), each in folder 1 + n/1000 and with start timestamp plus frame number at most 18000; stops only on a save tick where start timestamp plus frames saved exceeds 18000; logs, for each frame, the weather of the tick that saved it; afterwards the record holds the sun angles of the final clock and the lights follow its altitude, and when no tick ran the record, the sun and the lights are unchanged |
| EgoVehicles.FirstMatch | code/ego_vehicle.py:134-138 | the index of the first record of the frame: it matches, and every record before it does not |
| EgoVehicles.FirstMatchOfAppend | code/ego_vehicle.py:134-138 | records put on the queue after the match do not change which record is retrieved |
| EgoVehicles.SensorQueue.constructor | code/ego_vehicle.py:112 | a new queue is empty |
| EgoVehicles.SensorQueue.Put | code/ego_vehicle.py:113 | the registered callback appends a record at the back |
| EgoVehicles.SensorQueue.Get | code/ego_vehicle.py:136 | `get` removes and returns the oldest record |
| EgoVehicles.EgoVehicle.constructor | code/ego_vehicle.py:51-52 | a new ego vehicle has no queue; its current frame is set first by CreateQueue |
| EgoVehicles.EgoVehicle.MakeQueue | code/ego_vehicle.py:111-114 | appends one new, empty queue for the given source |
| EgoVehicles.EgoVehicle.CreateQueue | code/ego_vehicle.py:103-119 | sets the current frame and appends four new queues: world tick, RGB, semantic, GNSS |
| EgoVehicles.EgoVehicle.RetrieveData | code/ego_vehicle.py:134-138 | returns the first record of the current frame and leaves exactly the records behind it, in order |
| EgoVehicles.EgoVehicle.GetSyncData | code/ego_vehicle.py:123-130 | sets the frame, returns one record of that frame per queue in creation order, then the location; each queue keeps only what follows its match |
| EgoVehicles.Registry.constructor | code/ego_vehicle.py:22 | no ego vehicle is registered at first |
| EgoVehicles.Registry.NewEgoVehicle | code/ego_vehicle.py:25-66 | fails when a vehicle is registered (and keeps it); fails when spawning fails (and registers nothing); otherwise registers the new vehicle, which has no queue yet |

## Left out

- Floating point: times, blends, `elapsed_time += 1.0/hz` and `hz/fps` are exact reals here. IEEE rounding can move a float-driven boundary (the discard break, a window edge) by one tick.
- `math.sin` is foreign. The altitude is written in terms of a sine parameter `sinTurns`, so nothing about the sine's values is proved.
- The CARLA API is not modelled:
  - client and world setup, `world.tick`, `set_weather`, the light manager, blueprints;
  - spawning and destroying actors, sensor `listen`, `get_location`.
- The outcomes of those CARLA calls that the model uses are parameters:
  - the frame `apply_settings` returns;
  - whether the spawn succeeded;
  - the location;
  - the random timestamp draw;
  - the weather object (null when the weather is fixed).
- `EgoVehicle.destroy` and the blueprint getters only call into the simulator.
- The producer side of the queues is not modelled. Simulator threads call `put` concurrently, and `queue.Queue.get` blocks on an empty queue. Queues are snapshots of their records.
- File output is not modelled: images, `gnss.json`, `weather.json`, the CSV and JSON metadata, `os.makedirs`, progress bars, `sleep`. The saved frames are a map from frame number to folder, and the weather log a map from frame number to the values written.
- The calls to `get_sync_data` inside the two loops are modelled on their own (`EgoVehicle.GetSyncData`), not composed with the loops.
- GenerateSequence.RecordLoop takes `k = hz/fps` as a whole number `k >= 1` and runs `nbFrames * k` ticks (`TicksToRecordIntegral` shows this is `TicksToRecord` then). A fractional `hz/fps` is not modelled, because the `%` test on a float ratio is then degenerate.
- GenerateSequence.RecordLoop: its stop test is the source's, the start timestamp plus the frames saved against 18000. That matches the end of the weather cycle only at fps = 1 with no discard phase. At a higher frame rate the run stops well before the cycle ends, and after a discard phase a frame can be taken past 18000 s (`StopTestCountsFrames`).
- GenerateSequence.DiscardLoop and GenerateSequence.RecordLoop take the tick counts as natural numbers. The source's `range` of a negative count runs no tick, which is the same as a count of 0.
- GenerateSequence.RecordLoop states the scheduled weather values of a logged frame only for times inside [0, 18000]. Outside the cycle the parameters keep their previous values (`NextOutsideKeeps`). The single pass (`RecordTick`, `UpdateWeather`, `SaveFrame`) states that update, but the loop's contract does not carry it across passes.
- EgoVehicles.EgoVehicle.RetrieveData requires a record of the current frame to be in the queue. Without one the source waits forever for the producer.
- EgoVehicles.EgoVehicle.GetSyncData requires every queue to hold a record of the frame, for the same reason. The source's `assert` that all frames match becomes a proved postcondition.
- The other scripts (dataset driver, argument parsing, AI vehicles and pedestrians, download) are not part of this model.

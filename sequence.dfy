/** The arithmetic of a sequence run: the simulation rate, the start timestamp,
    the tick counts, and the recording loop that decides which ticks are saved
    as frames, which folder each frame goes to, when the run stops because the
    start timestamp plus the frames saved would exceed 18000, and when the city
    lights are on. */
module GenerateSequence {
  import opened DynamicWeather

  /** The simulation frequency: the requested one, raised to the frame rate when
      it is lower. */
  function EffectiveHz(hz: real, fps: int): (r: real)
    ensures r >= hz && r >= fps as real
    ensures r == hz || r == fps as real
  {
    if hz < fps as real then fps as real else hz
  }

  /** Latest start timestamp: 1801 below the 18000 s cycle length. */
  const LatestStart: int := 16199

  /** The start timestamp drawn at random (the draw is a parameter here), clamped
      into [0, 16199]. */
  function ClampTimestamp(draw: int): (r: int)
    ensures 0 <= r <= LatestStart
    ensures 0 <= draw <= LatestStart ==> r == draw
  {
    if draw < 0 then 0
    else if draw > LatestStart then LatestStart
    else draw
  }

  /** The clamp picks the point of [0, 16199] nearest to the draw. */
  lemma ClampIsNearest(draw: int, y: int)
    requires 0 <= y <= LatestStart
    ensures Dist(ClampTimestamp(draw), draw) <= Dist(y, draw)
  {
  }

  function Dist(a: int, b: int): nat {
    if a <= b then b - a else a - b
  }

  /** Conversion of a real to an integer by truncation toward zero. */
  function Trunc(x: real): (r: int)
    ensures x >= 0.0 ==> 0 <= r && r as real <= x < r as real + 1.0
    ensures x < 0.0 ==> r <= 0 && r as real - 1.0 < x <= r as real
  {
    if x >= 0.0 then x.Floor else -((-x).Floor)
  }

  /** Number of ticks to discard before recording. */
  function TicksToDiscard(discardDuration: real, hz: real): int {
    Trunc(discardDuration * hz)
  }

  /** Number of ticks to record. */
  function TicksToRecord(nbFrames: int, hz: real, fps: int): int
    requires fps >= 1
  {
    Trunc(nbFrames as real * hz / fps as real)
  }

  /** With hz = k * fps, the recording lasts exactly k ticks per frame. */
  lemma TicksToRecordIntegral(nbFrames: nat, hz: real, fps: int, k: nat)
    requires fps >= 1 && hz == (k * fps) as real
    ensures TicksToRecord(nbFrames, hz, fps) == nbFrames * k
  {
    RealCancel(nbFrames, k, fps, hz);
    TicksToRecordOf(nbFrames, hz, fps, (nbFrames * k) as real);
    TruncOfInt(nbFrames * k);
  }

  lemma TicksToRecordOf(nbFrames: int, hz: real, fps: int, x: real)
    requires fps >= 1 && nbFrames as real * hz / fps as real == x
    ensures TicksToRecord(nbFrames, hz, fps) == Trunc(x)
  {
  }

  lemma RealCancel(n: int, k: int, fps: int, hz: real)
    requires fps >= 1 && hz == (k * fps) as real
    ensures n as real * hz / fps as real == (n * k) as real
  {
    var f, m := fps as real, k as real;
    assert hz == m * f;
    assert n as real * hz == (n as real * m) * f;
  }

  lemma TruncOfInt(n: int)
    ensures Trunc(n as real) == n
  {
  }

  /** A discard phase of d seconds at hz ticks per second. */
  lemma TicksToDiscardBounds(d: real, hz: real)
    requires d >= 0.0 && hz > 0.0
    ensures 0 <= TicksToDiscard(d, hz)
    ensures TicksToDiscard(d, hz) as real <= d * hz < TicksToDiscard(d, hz) as real + 1.0
  {
  }

  /** The city lights are on exactly while the sun is less than 1 degree high. */
  predicate LightsOn(sunAltitude: real) {
    sunAltitude < 1.0
  }

  /** Folder number of frame n: folders are numbered from 1 and a new one is
      opened whenever the frame count reaches a multiple of 1000. */
  function FolderOf(n: int): int {
    1 + n / 1000
  }

  /** Frames 1..999 share the first folder; from then on each folder holds 1000
      frames, 1000k .. 1000k + 999. */
  lemma FolderSizes(n: int)
    requires n >= 1
    ensures FolderOf(n) == 1 <==> n <= 999
    ensures FolderOf(n) >= 2 ==> (FolderOf(n) - 1) * 1000 <= n < FolderOf(n) * 1000
  {
  }

  /** The elapsed time after n simulation ticks of 1/hz seconds each, added up
      one tick at a time as the run does. */
  function Elapsed(elapsed0: real, hz: real, n: int): real
    requires hz > 0.0
    decreases n
  {
    if n <= 0 then elapsed0 else Elapsed(elapsed0, hz, n - 1) + 1.0 / hz
  }

  /** n ticks add up to n / hz seconds. */
  lemma {:induction false} ElapsedClosedForm(elapsed0: real, hz: real, n: nat)
    requires hz > 0.0
    ensures Elapsed(elapsed0, hz, n) == elapsed0 + n as real / hz
  {
    if n > 0 {
      ElapsedClosedForm(elapsed0, hz, n - 1);
      TimeStep(elapsed0, n - 1, hz);
    }
  }

  /** The time the weather is advanced to on the tick that saves frame n: frame
      n is saved on recording tick (n - 1) * k, counted from 0, so that
      (n - 1) * k + 1 ticks have elapsed. */
  function FrameTime(seqTimestamp: int, elapsed0: real, hz: real, k: int, n: int): real
    requires hz > 0.0
  {
    seqTimestamp as real + Elapsed(elapsed0, hz, (n - 1) * k + 1)
  }

  /** Frame n is taken (n - 1) / fps + 1 / hz seconds into the recording. */
  lemma FrameTimeClosedForm(seqTimestamp: int, elapsed0: real, fps: int, k: int, n: int)
    requires fps >= 1 && k >= 1 && n >= 1
    ensures var hz := (k * fps) as real;
      hz > 0.0 &&
      FrameTime(seqTimestamp, elapsed0, hz, k, n)
        == seqTimestamp as real + elapsed0 + (n - 1) as real / fps as real + 1.0 / hz
  {
    MulAtLeast(k, fps);
    var hz := (k * fps) as real;
    MulAtLeast(n, k);
    var m := (n - 1) * k + 1;
    ElapsedClosedForm(elapsed0, hz, m);
    assert hz == k as real * fps as real;
    assert m as real == (n - 1) as real * k as real + 1.0;
    assert m as real / hz == (n - 1) as real / fps as real + 1.0 / hz;
  }

  /** The stop test adds a frame count to a time in seconds, so it follows the
      clock only at one frame per second with nothing discarded. At 10 Hz and
      1 fps after a 3 s discard, from the latest start, frame 1801 passes the
      test although it is taken 2.1 s after the end of the cycle. */
  lemma StopTestCountsFrames()
    ensures LatestStart + 1801 <= 18000
    ensures FrameTime(LatestStart, 3.0, 10.0, 10, 1801) == 18002.1
  {
    FrameTimeClosedForm(LatestStart, 3.0, 1, 10, 1801);
  }

  /** The weather values written for a saved frame. */
  datatype WeatherEntry = WeatherEntry(
    sunAzimuthAngle: real,
    sunAltitudeAngle: real,
    params: Params,
    fixed: FixedParams)

  function Entry(w: WeatherParameters): WeatherEntry
    reads w
  {
    WeatherEntry(w.sunAzimuthAngle, w.sunAltitudeAngle, w.Snapshot(), w.Fixed())
  }

  lemma MulAtLeast(d: int, k: int)
    requires d >= 1 && k >= 1
    ensures d * k >= k
    decreases d
  {
    if d > 1 {
      MulAtLeast(d - 1, k);
      assert d * k == (d - 1) * k + k;
    }
  }

  /** A weather log entry taken at time t: the sun position of time t, the
      scheduled regime values when t lies within the cycle, and the fixed
      parameters of the run. */
  ghost predicate Logged(e: WeatherEntry, sinTurns: real -> real, fixed: FixedParams, t: real) {
    && e.sunAzimuthAngle == Azimuth(t)
    && e.sunAltitudeAngle == Altitude(sinTurns, t)
    && e.fixed == fixed
    && (0.0 <= t <= 18000.0 ==> Some(e.params) == ScheduleAt(t))
  }

  lemma DivUnique(x: int, k: int, q: int, r: int)
    requires k >= 1 && 0 <= r < k && x == q * k + r
    ensures x / k == q && x % k == r
  {
    var q', r' := x / k, x % k;
    assert x == q' * k + r';
    if q' > q {
      MulAtLeast(q' - q, k);
    } else if q' < q {
      MulAtLeast(q - q', k);
    }
  }

  lemma ModSmall(c: int, k: int)
    requires 0 < c < k
    ensures c % k != 0
  {
    DivUnique(c, k, 0, c);
  }

  lemma TimeStep(e0: real, n: int, hz: real)
    requires hz > 0.0
    ensures e0 + n as real / hz + 1.0 / hz == e0 + (n + 1) as real / hz
  {
  }

  /** Frames saved so far, from the tick count: ceil(ticks / k). */
  lemma SavedFromCounter(nb: int, k: int, c: int, ticks: int)
    requires k >= 1 && 1 <= c <= k && (nb - 1) * k + c == ticks
    ensures nb == (ticks + k - 1) / k
  {
    assert ticks + k - 1 == nb * k + (c - 1);
    DivUnique(ticks + k - 1, k, nb, c - 1);
  }

  /** A run that completes saves exactly nbFrames frames. */
  lemma SavedAtEnd(nb: int, k: int, c: int, nbFrames: int)
    requires k >= 1 && 1 <= c <= k && (nb - 1) * k + c == nbFrames * k
    ensures nb == nbFrames
  {
    SavedFromCounter(nb, k, c, nbFrames * k);
    DivUnique(nbFrames * k + k - 1, k, nbFrames, k - 1);
  }

  /** The weather update of a tick with a dynamic weather: the weather
      follows the time t, and the city lights are switched by the new sun
      altitude. */
  method UpdateWeather(weather: Weather, t: real) returns (lightsOn: bool)
    modifies weather.weather, weather.sun
    ensures weather.sun.azimuth == Azimuth(t)
    ensures weather.sun.altitude == Altitude(weather.sun.sinTurns, t)
    ensures weather.weather.Snapshot() == NextParams(old(weather.weather.Snapshot()), t)
    ensures weather.weather.Fixed() == old(weather.weather.Fixed())
    ensures Logged(Entry(weather.weather), weather.sun.sinTurns, weather.weather.Fixed(), t)
    ensures lightsOn <==> LightsOn(weather.weather.sunAltitudeAngle)
  {
    var prev := weather.weather.Snapshot();
    weather.Tick(t);
    lightsOn := weather.weather.sunAltitudeAngle < 1.0;
    if 0.0 <= t <= 18000.0 {
      NextDependsOnTimeOnly(prev, prev, t);
    }
  }

  /** The discard phase: ticksToDiscard ticks whose data is dropped. With a
      dynamic weather the clock starts at 0 and advances one tick at a time,
      and the phase breaks off as soon as the clock would pass the end of the
      cycle; otherwise the weather follows the clock as in the recording. */
  method DiscardLoop(seqTimestamp: int, hz: real, ticksToDiscard: nat, weather: Weather?, lights0: bool)
    returns (elapsed: real, lightsOn: bool, ticks: nat, stopped: bool)
    requires hz > 0.0
    modifies if weather == null then {} else {weather.weather}
    modifies if weather == null then {} else {weather.sun}
    ensures ticks <= ticksToDiscard
    ensures !stopped ==> ticks == ticksToDiscard
    ensures weather == null ==> !stopped && elapsed == 0.0 && lightsOn == lights0
    ensures weather != null ==>
      && elapsed == Elapsed(0.0, hz, ticks + if stopped then 1 else 0)
      && weather.weather.Fixed() == old(weather.weather.Fixed())
    ensures stopped ==> seqTimestamp as real + elapsed > 18000.0
    ensures weather != null && ticks > 0 ==>
      var t := seqTimestamp as real + Elapsed(0.0, hz, ticks);
      && t <= 18000.0
      && Logged(Entry(weather.weather), weather.sun.sinTurns, old(weather.weather.Fixed()), t)
      && (lightsOn <==> LightsOn(weather.weather.sunAltitudeAngle))
    // without a completed tick the weather and the lights are as they were
    ensures weather != null && ticks == 0 ==>
      unchanged(weather.weather) && unchanged(weather.sun) && lightsOn == lights0
  {
    elapsed, lightsOn, ticks, stopped := 0.0, lights0, 0, false;
    while ticks < ticksToDiscard
      invariant ticks <= ticksToDiscard
      invariant weather == null ==> elapsed == 0.0 && lightsOn == lights0
      invariant weather != null ==>
        && elapsed == Elapsed(0.0, hz, ticks)
        && weather.weather.Fixed() == old(weather.weather.Fixed())
      invariant weather != null && ticks > 0 ==>
        && seqTimestamp as real + elapsed <= 18000.0
        && Logged(Entry(weather.weather), weather.sun.sinTurns, old(weather.weather.Fixed()),
                  seqTimestamp as real + elapsed)
        && (lightsOn <==> LightsOn(weather.weather.sunAltitudeAngle))
      invariant weather != null && ticks == 0 ==>
        unchanged(weather.weather) && unchanged(weather.sun) && lightsOn == lights0
    {
      if weather != null {
        elapsed := elapsed + 1.0 / hz;
        if seqTimestamp as real + elapsed > 18000.0 {
          stopped := true;
          break;
        }
        lightsOn := UpdateWeather(weather, seqTimestamp as real + elapsed);
      }
      ticks := ticks + 1;
    }
  }

  /** The frame counters after `ticks` recording ticks at k ticks per frame: a
      frame is saved on the first tick and then every k ticks, so the counter
      runs from 1 to k and nbFramesSaved - 1 whole periods lie behind it. */
  ghost predicate Counting(ticks: nat, counterFrame: int, nbFramesSaved: int, k: nat) {
    if ticks == 0 then counterFrame == 0 && nbFramesSaved == 0
    else 1 <= counterFrame <= k && (nbFramesSaved - 1) * k + counterFrame == ticks
  }

  /** The frame bookkeeping of one recording tick: the save decision, the stop
      when the start timestamp plus the frames saved would exceed 18000, the
      folder switch and the counter increment.
      `ticks` is the number of recording ticks already done. */
  method CountTick(ghost ticks: nat, counterFrame: int, nbFramesSaved: nat, dirName: int,
                   seqTimestamp: int, k: nat)
    returns (counter': int, nb': nat, dir': int, save: bool, stop: bool)
    requires k >= 1 && Counting(ticks, counterFrame, nbFramesSaved, k)
    requires dirName == FolderOf(nbFramesSaved)
    requires ticks > 0 ==> seqTimestamp + nbFramesSaved <= 18000
    ensures save <==> ticks % k == 0
    ensures nb' == if save then nbFramesSaved + 1 else nbFramesSaved
    ensures save ==> ticks == (nb' - 1) * k
    ensures stop <==> seqTimestamp + nb' > 18000
    ensures stop ==> save && dir' == dirName
    ensures !stop ==> Counting(ticks + 1, counter', nb', k) && dir' == FolderOf(nb')
  {
    DivUnique(0, k, 0, 0);
    DivUnique(k, k, 1, 0);
    if 0 < counterFrame < k {
      ModSmall(counterFrame, k);
    }
    counter', nb', dir', save, stop := counterFrame, nbFramesSaved, dirName, false, false;
    if counter' % k == 0 {
      nb' := nb' + 1;
      save := true;
      counter' := 0;
    }
    if seqTimestamp + nb' > 18000 {
      stop := true;
    } else {
      if nb' % 1000 == 0 && counter' % k == 0 {
        dir' := dir' + 1;
      }
      counter' := counter' + 1;
    }
    if ticks > 0 {
      assert nbFramesSaved * k == (nbFramesSaved - 1) * k + k;
      if save {
        DivUnique(ticks, k, nbFramesSaved, 0);
      } else {
        DivUnique(ticks, k, nbFramesSaved - 1, counterFrame);
      }
    }
  }

  /** What the frame counters say when the recording loop ends, by the break
      on a save tick or after the last tick. */
  lemma LoopExit(stopped: bool, ticks: nat, k: nat, counterFrame: int, nb: int, nbFrames: nat)
    requires k >= 1
    requires stopped ==> (nb - 1) * k == ticks && ticks < nbFrames * k
    requires !stopped ==> ticks == nbFrames * k && Counting(ticks, counterFrame, nb, k)
    ensures stopped ==> 0 <= nb - 1 < nbFrames && nb - 1 == (ticks + k - 1) / k
    ensures !stopped ==> nb == (ticks + k - 1) / k
    ensures stopped ==> ticks % k == 0
    ensures !stopped ==> nb == nbFrames
  {
    if stopped {
      var written := nb - 1;
      DivUnique(ticks + k - 1, k, written, k - 1);
      DivUnique(ticks, k, written, 0);
      if written < 0 {
        MulAtLeast(-written, k);
      }
      if written >= nbFrames {
        if written > nbFrames {
          MulAtLeast(written - nbFrames, k);
        }
      }
    } else if ticks > 0 {
      SavedFromCounter(nb, k, counterFrame, ticks);
      SavedAtEnd(nb, k, counterFrame, nbFrames);
    } else {
      DivUnique(k - 1, k, 0, k - 1);
      if nbFrames > 0 {
        MulAtLeast(nbFrames, k);
      }
    }
  }

  /** The frames saved so far are exactly 1..n, each in the folder FolderOf
      gives it. */
  ghost predicate FramesUpTo(frames: map<int, int>, n: int) {
    && (forall m :: m in frames <==> 1 <= m <= n)
    && (forall m :: m in frames ==> frames[m] == FolderOf(m))
  }

  /** The weather log has an entry for every saved frame, taken on the tick
      that saved it. */
  ghost predicate LogMatches(weatherLog: map<int, WeatherEntry>, frames: map<int, int>,
                             sinTurns: real -> real, fixed: FixedParams,
                             seqTimestamp: int, elapsed0: real, hz: real, k: int)
    requires hz > 0.0
  {
    && weatherLog.Keys == frames.Keys
    && forall n :: n in weatherLog ==>
         Logged(weatherLog[n], sinTurns, fixed, FrameTime(seqTimestamp, elapsed0, hz, k, n))
  }

  /** Saving frame n: its image folder, and with a dynamic weather the current
      weather values. */
  method SaveFrame(weather: Weather?, n: int, dirName: int,
                   frames: map<int, int>, weatherLog: map<int, WeatherEntry>,
                   ghost fixed: FixedParams, ghost seqTimestamp: int, ghost elapsed0: real,
                   ghost hz: real, ghost k: int)
    returns (frames': map<int, int>, weatherLog': map<int, WeatherEntry>)
    requires n >= 1 && hz > 0.0 && FramesUpTo(frames, n - 1) && dirName == FolderOf(n)
    requires weather == null ==> weatherLog == map[]
    requires weather != null ==>
      && LogMatches(weatherLog, frames, weather.sun.sinTurns, fixed, seqTimestamp, elapsed0, hz, k)
      && Logged(Entry(weather.weather), weather.sun.sinTurns, fixed,
                FrameTime(seqTimestamp, elapsed0, hz, k, n))
    ensures FramesUpTo(frames', n)
    ensures weather == null ==> weatherLog' == map[]
    ensures weather != null ==> weatherLog' == weatherLog[n := Entry(weather.weather)]
    ensures weather != null ==>
      LogMatches(weatherLog', frames', weather.sun.sinTurns, fixed, seqTimestamp, elapsed0, hz, k)
  {
    frames' := frames[n := dirName];
    weatherLog' := weatherLog;
    if weather != null {
      weatherLog' := weatherLog[n := Entry(weather.weather)];
    }
  }

  /** The frame bookkeeping after `ticks` recording ticks that did not stop the
      run: the counters, the current folder and the frames saved. */
  ghost predicate Bookkeeping(ticks: nat, counterFrame: int, nbFramesSaved: int, dirName: int,
                              frames: map<int, int>, seqTimestamp: int, k: nat) {
    && Counting(ticks, counterFrame, nbFramesSaved, k)
    && (ticks > 0 ==> seqTimestamp + nbFramesSaved <= 18000)
    && dirName == FolderOf(nbFramesSaved)
    && FramesUpTo(frames, nbFramesSaved)
  }

  /** One pass of the recording loop's body: the weather step, the frame
      bookkeeping, then, unless the run stops there, the saving of the frame.
      `ticks` is the number of passes already done. */
  method RecordTick(ghost ticks: nat, counterFrame: int, nbFramesSaved: nat, dirName: int,
                    frames: map<int, int>, weatherLog: map<int, WeatherEntry>,
                    lightsOn: bool, elapsed: real, weather: Weather?, seqTimestamp: int,
                    hz: real, k: nat, ghost elapsed0: real, ghost fixed: FixedParams)
    returns (counter': int, nb': nat, dir': int, frames': map<int, int>,
             weatherLog': map<int, WeatherEntry>, lights': bool, elapsed': real, stop: bool)
    requires k >= 1 && hz > 0.0
    requires Bookkeeping(ticks, counterFrame, nbFramesSaved, dirName, frames, seqTimestamp, k)
    requires weather == null ==> weatherLog == map[]
    requires weather != null ==>
      && elapsed == Elapsed(elapsed0, hz, ticks)
      && weather.weather.Fixed() == fixed
      && LogMatches(weatherLog, frames, weather.sun.sinTurns, fixed, seqTimestamp, elapsed0, hz, k)
    modifies if weather == null then {} else {weather.weather}
    modifies if weather == null then {} else {weather.sun}
    ensures weather == null ==> weatherLog' == map[] && lights' == lightsOn
    ensures weather != null ==>
      && elapsed' == Elapsed(elapsed0, hz, ticks + 1)
      && weather.weather.Fixed() == fixed
      && (lights' <==> LightsOn(weather.weather.sunAltitudeAngle))
      && LogMatches(weatherLog', frames', weather.sun.sinTurns, fixed, seqTimestamp, elapsed0, hz, k)
      && weather.weather.Snapshot()
           == NextParams(old(weather.weather.Snapshot()), seqTimestamp as real + elapsed')
      && Logged(Entry(weather.weather), weather.sun.sinTurns, fixed, seqTimestamp as real + elapsed')
    // the log gains the new frame's entry exactly when a frame is saved
    ensures weather != null && !stop && nb' != nbFramesSaved ==>
      weatherLog' == weatherLog[nb' := Entry(weather.weather)]
    ensures stop || nb' == nbFramesSaved ==> weatherLog' == weatherLog
    ensures stop ==>
      && (nb' - 1) * k == ticks && seqTimestamp + nb' > 18000
      && dir' == dirName && frames' == frames && weatherLog' == weatherLog
      && nb' - 1 == nbFramesSaved
    ensures !stop ==> Bookkeeping(ticks + 1, counter', nb', dir', frames', seqTimestamp, k)
  {
    lights', elapsed' := lightsOn, elapsed;
    if weather != null {
      elapsed' := elapsed + 1.0 / hz;
      lights' := UpdateWeather(weather, seqTimestamp as real + elapsed');
    }

    var saveFrame;
    counter', nb', dir', saveFrame, stop :=
      CountTick(ticks, counterFrame, nbFramesSaved, dirName, seqTimestamp, k);
    frames', weatherLog' := frames, weatherLog;
    if !stop && saveFrame {
      frames', weatherLog' := SaveFrame(weather, nb', dir', frames, weatherLog,
                                        fixed, seqTimestamp, elapsed0, hz, k);
    }
  }

  /** The recording loop of a run with k = hz / fps simulation ticks per saved
      frame, k a whole number, which runs nbFrames * k ticks. `weather` is null
      when the weather is fixed; `elapsed0` and `lights0` are the elapsed time
      and the light state left by the discard phase. Returns the counters, the
      saved frames (frame number to image folder; the same keys index the GNSS
      log), the weather log, and whether the run stopped because the start
      timestamp plus the frames saved would exceed 18000. */
  method RecordLoop(seqTimestamp: int, hz: real, k: nat, nbFrames: nat,
                    weather: Weather?, elapsed0: real, lights0: bool)
    returns (nbFramesSaved: nat, dirName: int, frames: map<int, int>,
             weatherLog: map<int, WeatherEntry>, lightsOn: bool, elapsed: real,
             ticks: nat, stopped: bool)
    requires k >= 1 && hz > 0.0
    modifies if weather == null then {} else {weather.weather}
    modifies if weather == null then {} else {weather.sun}
    // the frames written: one every k ticks, starting with the first
    ensures var written := if stopped then nbFramesSaved - 1 else nbFramesSaved;
      && written <= nbFrames
      && written == (ticks + k - 1) / k
      && FramesUpTo(frames, written)
      && dirName == FolderOf(written)
    ensures forall n :: n in frames ==> seqTimestamp + n <= 18000
    // the run stops only on a save tick where the start timestamp plus the
    // frames saved would exceed 18000
    ensures stopped ==> ticks < nbFrames * k && ticks % k == 0 && seqTimestamp + nbFramesSaved > 18000
    ensures !stopped ==> ticks == nbFrames * k && nbFramesSaved == nbFrames
    // the weather and the lights
    ensures weather == null ==> weatherLog == map[] && lightsOn == lights0
    ensures weather != null ==>
      && elapsed == Elapsed(elapsed0, hz, ticks + if stopped then 1 else 0)
      && weather.weather.Fixed() == old(weather.weather.Fixed())
      && LogMatches(weatherLog, frames, weather.sun.sinTurns, old(weather.weather.Fixed()),
                    seqTimestamp, elapsed0, hz, k)
    // after the last pass the record holds the weather of the clock, and the
    // lights follow its sun; without a pass nothing has changed
    ensures weather != null && (ticks > 0 || stopped) ==>
      && Logged(Entry(weather.weather), weather.sun.sinTurns, old(weather.weather.Fixed()),
                seqTimestamp as real + elapsed)
      && (lightsOn <==> LightsOn(weather.weather.sunAltitudeAngle))
    ensures weather != null && ticks == 0 && !stopped ==>
      unchanged(weather.weather) && unchanged(weather.sun) && lightsOn == lights0
  {
    // TicksToRecord(nbFrames, hz, fps) when hz = k * fps (TicksToRecordIntegral)
    var ticksToRecord := nbFrames * k;
    ghost var fixed := if weather != null then weather.weather.Fixed() else InitialFixed;
    var counterFrame := 0;
    nbFramesSaved, dirName := 0, 1;
    frames, weatherLog := map[], map[];
    lightsOn, elapsed := lights0, elapsed0;
    ticks, stopped := 0, false;
    while ticks < ticksToRecord
      invariant ticks <= ticksToRecord
      invariant Bookkeeping(ticks, counterFrame, nbFramesSaved, dirName, frames, seqTimestamp, k)
      invariant weather == null ==> weatherLog == map[] && lightsOn == lights0
      invariant weather != null ==>
        && elapsed == Elapsed(elapsed0, hz, ticks)
        && weather.weather.Fixed() == fixed
        && LogMatches(weatherLog, frames, weather.sun.sinTurns, fixed, seqTimestamp, elapsed0, hz, k)
      invariant weather != null && ticks > 0 ==>
        && Logged(Entry(weather.weather), weather.sun.sinTurns, fixed, seqTimestamp as real + elapsed)
        && (lightsOn <==> LightsOn(weather.weather.sunAltitudeAngle))
      invariant weather != null && ticks == 0 ==>
        unchanged(weather.weather) && unchanged(weather.sun) && lightsOn == lights0
    {
      var stop;
      counterFrame, nbFramesSaved, dirName, frames, weatherLog, lightsOn, elapsed, stop :=
        RecordTick(ticks, counterFrame, nbFramesSaved, dirName, frames, weatherLog,
                   lightsOn, elapsed, weather, seqTimestamp, hz, k, elapsed0, fixed);
      if stop {
        stopped := true;
        break;
      }
      ticks := ticks + 1;
    }
    LoopExit(stopped, ticks, k, counterFrame, nbFramesSaved, nbFrames);
  }
}

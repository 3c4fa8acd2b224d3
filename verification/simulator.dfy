/**
 The temperature reading generator (internal/simulator/simulator.go).

 Every sensor performs a clamped random walk that starts at `startingTemp`.
 On each tick every sensor's temperature moves by a fluctuation drawn from
 `[-tempFluctuation, tempFluctuation)`, rises by `maxTempIncrease / 5` while
 the tick lies in the first five minutes of its hour, and is clamped to
 `[minTemp, maxTemp]`. Readings come out tick by tick, and within a tick in
 sensor order.

 The random source and the wall clock are inputs here: `draws[t][i]` is the
 value `r.Float64()` returns for sensor `i` on tick `t` (Go consumes its
 stream in exactly this tick-major order), and a `Clock` supplies the time
 of each tick in whole seconds. Formatting a time as text is left abstract,
 so a reading carries the time as a number.
 */
module Simulator {
  import opened Results
  import opened SimConfig

  /** How many readings (ticks) make up one simulated hour. */
  const ReadingsPerHour: nat := 60

  /** How many ticks at the start of each hour belong to the ramp phase. */
  const IncreasePeriodMinutes: nat := 5

  /** Length of one tick in seconds. */
  const TickSeconds: nat := 60

  /** One emitted reading: time of its tick, temperature, and the sensor it came from. */
  datatype Reading = Reading(time: int, temperature: real, sensor: Sensor)

  /**
   Where tick times come from. In simulate mode a virtual clock starts at
   `start` and advances by one tick before each reading; otherwise the
   generator sleeps a tick and samples the wall clock, whose sample for
   tick `t` is `samples[t]`.
   */
  datatype Clock = Simulated(start: int) | WallClock(samples: seq<int>)

  /** The temperature parameters of a run. */
  datatype Params = Params(
    startingTemp: real,
    maxTempIncrease: real,
    tempFluctuation: real,
    minTemp: real,
    maxTemp: real)

  /** Everything one run of the generator depends on. */
  datatype Run = Run(sensors: seq<Sensor>, params: Params, draws: seq<seq<real>>, clock: Clock)

  /** The run supplies a draw for every sensor and a time for every tick below `ticks`. */
  predicate Covers(run: Run, ticks: nat) {
    && ticks <= |run.draws|
    && (forall t :: 0 <= t < ticks ==> |run.draws[t]| == |run.sensors|)
    && (run.clock.WallClock? ==> ticks <= |run.clock.samples|)
  }

  // ---------------------------------------------------------------------------
  // One step of the random walk

  function Dist(a: real, b: real): real {
    if a <= b then b - a else a - b
  }

  /**
   Clamping to `[lo, hi]`. When the interval is non-empty the result lies in
   it, and a value already inside is left alone.
   */
  function Clamp(x: real, lo: real, hi: real): (r: real)
    ensures lo <= hi ==> lo <= r <= hi
    ensures lo <= x <= hi ==> r == x
  {
    if x < lo then lo else if x > hi then hi else x
  }

  /** Clamping to a non-empty interval picks the point of the interval nearest to `x`. */
  lemma ClampNearest(x: real, lo: real, hi: real)
    requires lo <= hi
    ensures forall y :: lo <= y <= hi ==> Dist(Clamp(x, lo, hi), x) <= Dist(y, x)
  {
  }

  /** Clamping twice is clamping once. */
  lemma ClampIdempotent(x: real, lo: real, hi: real)
    requires lo <= hi
    ensures Clamp(Clamp(x, lo, hi), lo, hi) == Clamp(x, lo, hi)
  {
  }

  /** Whether `tick` (counted from 0) lies in the ramp phase of its hour. */
  predicate InRampPhase(tick: nat) {
    tick % ReadingsPerHour < IncreasePeriodMinutes
  }

  /** The extra rise applied on each ramp tick; five of them add up to `maxTempIncrease`. */
  function IncreasePerMinute(maxTempIncrease: real): (r: real)
    ensures IncreasePeriodMinutes as real * r == maxTempIncrease
  {
    maxTempIncrease / IncreasePeriodMinutes as real
  }

  /**
   The fluctuation obtained from a uniform draw `u` in `[0, 1)`: it lies in
   `[-a, a)` for a positive amplitude and is zero for a zero amplitude.
   */
  function Fluctuation(u: real, a: real): (r: real)
    ensures 0.0 <= u < 1.0 && 0.0 < a ==> -a <= r < a
    ensures a == 0.0 ==> r == 0.0
  {
    FluctuationBounds(u, a);
    u * 2.0 * a - a
  }

  lemma FluctuationBounds(u: real, a: real)
    ensures 0.0 <= u < 1.0 && 0.0 < a ==> -a <= u * 2.0 * a - a < a
  {
    if 0.0 <= u < 1.0 && 0.0 < a {
      assert 0.0 <= u * a;
      assert u * a < a;
    }
  }

  /** One tick for one sensor: fluctuate, ramp if in the ramp phase, then clamp. */
  function Step(p: Params, prev: real, u: real, tick: nat): (r: real)
    ensures p.minTemp <= p.maxTemp ==> p.minTemp <= r <= p.maxTemp
  {
    var ramp := if InRampPhase(tick) then IncreasePerMinute(p.maxTempIncrease) else 0.0;
    Clamp(prev + Fluctuation(u, p.tempFluctuation) + ramp, p.minTemp, p.maxTemp)
  }

  // ---------------------------------------------------------------------------
  // Reference definition of the output

  /** Temperature of sensor `i` once `ticks` ticks have run; `startingTemp` before any. */
  function TempAfter(run: Run, i: nat, ticks: nat): real
    requires Covers(run, ticks) && i < |run.sensors|
  {
    if ticks == 0 then run.params.startingTemp
    else Step(run.params, TempAfter(run, i, ticks - 1), run.draws[ticks - 1][i], ticks - 1)
  }

  /** Emitted temperature of sensor `i` on tick `t`. */
  function TempAt(run: Run, i: nat, t: nat): real
    requires Covers(run, t + 1) && i < |run.sensors|
  {
    TempAfter(run, i, t + 1)
  }

  /** Time shared by every reading of tick `t`. */
  function TickTime(clock: Clock, t: nat): int
    requires clock.WallClock? ==> t < |clock.samples|
  {
    match clock
    case Simulated(start) => start + TickSeconds * (t + 1)
    case WallClock(samples) => samples[t]
  }

  /** The reading of sensor `i` on tick `t`. */
  function ReadingOf(run: Run, t: nat, i: nat): Reading
    requires Covers(run, t + 1) && i < |run.sensors|
  {
    Reading(TickTime(run.clock, t), TempAt(run, t := t, i := i), run.sensors[i])
  }

  /** Readings of the first `m` sensors on tick `t`, in sensor order. */
  function TickReadings(run: Run, t: nat, m: nat): seq<Reading>
    requires Covers(run, t + 1) && m <= |run.sensors|
  {
    if m == 0 then [] else TickReadings(run, t, m - 1) + [ReadingOf(run, t, m - 1)]
  }

  /** All readings of the first `ticks` ticks, tick-major. */
  function Readings(run: Run, ticks: nat): seq<Reading>
    requires Covers(run, ticks)
  {
    if ticks == 0 then [] else Readings(run, ticks - 1) + TickReadings(run, ticks - 1, |run.sensors|)
  }

  /** The run `GenerateTemperatureReadings` performs for its arguments. */
  function RunOf(
    sensors: seq<Sensor>,
    startingTemp: real, maxTempIncrease: real, tempFluctuation: real, minTemp: real, maxTemp: real,
    simulate: bool, startTime: int, wallClock: seq<int>, draws: seq<seq<real>>): Run
  {
    Run(sensors,
        Params(startingTemp, maxTempIncrease, tempFluctuation, minTemp, maxTemp),
        draws,
        if simulate then Simulated(startTime) else WallClock(wallClock))
  }

  /**
   One tick of sensor `i`, computed statement by statement the way the
   generator's loop body does it, is the reference `Step`.
   */
  lemma StepAsComputed(run: Run, i: nat, t: nat, increaseAmountPerMinute: real, temp: real)
    requires Covers(run, t + 1) && i < |run.sensors|
    requires increaseAmountPerMinute == run.params.maxTempIncrease / IncreasePeriodMinutes as real
    requires var p := run.params;
             var moved := TempAfter(run, i, t) + Fluctuation(run.draws[t][i], p.tempFluctuation);
             var ramped := if t % ReadingsPerHour < IncreasePeriodMinutes then moved + increaseAmountPerMinute else moved;
             temp == if ramped < p.minTemp then p.minTemp else if ramped > p.maxTemp then p.maxTemp else ramped
    ensures temp == TempAfter(run, i, t + 1)
  {
  }

  // ---------------------------------------------------------------------------
  // The generator

  /**
   The sensor loop of tick `t`: every sensor takes one step from its current
   temperature, and its reading, stamped `currentTime`, is appended in sensor
   order.
   */
  method AdvanceTick(run: Run, t: nat, sensorTemps: seq<real>, currentTime: int)
    returns (newTemps: seq<real>, tickData: seq<Reading>)
    requires Covers(run, t + 1)
    requires currentTime == TickTime(run.clock, t)
    requires |sensorTemps| == |run.sensors|
    requires forall j :: 0 <= j < |run.sensors| ==> sensorTemps[j] == TempAfter(run, j, t)
    ensures |newTemps| == |run.sensors|
    ensures forall j :: 0 <= j < |run.sensors| ==> newTemps[j] == TempAfter(run, j, t + 1)
    ensures tickData == TickReadings(run, t, |run.sensors|)
  {
    var p := run.params;
    var increaseAmountPerMinute := p.maxTempIncrease / IncreasePeriodMinutes as real;
    var increasePhase := t % ReadingsPerHour < IncreasePeriodMinutes;
    newTemps := sensorTemps;
    tickData := [];
    var i := 0;
    while i < |run.sensors|
      invariant 0 <= i <= |run.sensors|
      invariant |newTemps| == |run.sensors|
      invariant forall j :: 0 <= j < i ==> newTemps[j] == TempAfter(run, j, t + 1)
      invariant forall j :: i <= j < |run.sensors| ==> newTemps[j] == TempAfter(run, j, t)
      invariant tickData == TickReadings(run, t, i)
    {
      var temp := newTemps[i];
      var fluctuation := Fluctuation(run.draws[t][i], p.tempFluctuation);
      temp := temp + fluctuation;
      if increasePhase {
        temp := temp + increaseAmountPerMinute;
      }
      if temp < p.minTemp {
        temp := p.minTemp;
      } else if temp > p.maxTemp {
        temp := p.maxTemp;
      }
      StepAsComputed(run, i, t, increaseAmountPerMinute, temp);
      newTemps := newTemps[i := temp];
      tickData := tickData + [Reading(currentTime, temp, run.sensors[i])];
      i := i + 1;
    }
  }

  /**
   `GenerateTemperatureReadings`, with the random draws and clock readings
   supplied by the caller. Go panics in `make` when `totalReadings` is
   negative and there is at least one sensor, hence the precondition.
   */
  method GenerateTemperatureReadings(
    sensors: seq<Sensor>,
    totalReadings: int,
    startingTemp: real, maxTempIncrease: real, tempFluctuation: real, minTemp: real, maxTemp: real,
    simulate: bool,
    startTime: int,
    wallClock: seq<int>,
    draws: seq<seq<real>>)
    returns (data: seq<Reading>, err: Option<string>)
    requires totalReadings >= 0 || |sensors| == 0
    requires Covers(RunOf(sensors, startingTemp, maxTempIncrease, tempFluctuation, minTemp, maxTemp,
                          simulate, startTime, wallClock, draws),
                    if totalReadings < 0 then 0 else totalReadings)
    ensures err.None?
    ensures |data| == totalReadings * |sensors|
    ensures forall k :: 0 <= k < |data| ==> data[k].sensor == sensors[k % |sensors|]
    ensures minTemp <= maxTemp ==> forall k :: 0 <= k < |data| ==> minTemp <= data[k].temperature <= maxTemp
    ensures simulate ==> forall k :: 0 <= k < |data| ==>
                           data[k].time == startTime + TickSeconds * (k / |sensors| + 1)
    ensures data == Readings(RunOf(sensors, startingTemp, maxTempIncrease, tempFluctuation, minTemp, maxTemp,
                                   simulate, startTime, wallClock, draws),
                             if totalReadings < 0 then 0 else totalReadings)
  {
    var run := RunOf(sensors, startingTemp, maxTempIncrease, tempFluctuation, minTemp, maxTemp,
                     simulate, startTime, wallClock, draws);
    ghost var total: nat := if totalReadings < 0 then 0 else totalReadings;

    var sensorTemps := seq(|sensors|, _ => startingTemp);
    data := [];
    var currentTime := 0;
    if simulate {
      currentTime := startTime;
    }

    var loopCount := 0;
    while loopCount < totalReadings
      invariant 0 <= loopCount <= total
      invariant |sensorTemps| == |sensors|
      invariant forall j :: 0 <= j < |sensors| ==> sensorTemps[j] == TempAfter(run, j, loopCount)
      invariant simulate ==> currentTime == startTime + TickSeconds * loopCount
      invariant data == Readings(run, loopCount)
    {
      if simulate {
        currentTime := currentTime + TickSeconds;
      } else {
        currentTime := wallClock[loopCount];
      }
      var tickData;
      sensorTemps, tickData := AdvanceTick(run, loopCount, sensorTemps, currentTime);
      data := data + tickData;
      loopCount := loopCount + 1;
    }

    ReadingsLength(run, total);
    ReadingsSensors(run, total);
    if minTemp <= maxTemp {
      ReadingsInBounds(run, total);
    }
    if simulate {
      SimulatedReadingTimes(run, total);
    }
    err := None;
  }

  // ---------------------------------------------------------------------------
  // Index arithmetic for a tick-major layout with `n` readings per tick

  lemma MulSucc(a: nat, n: nat)
    ensures (a + 1) * n == a * n + n
  {
  }

  /** Position `t * n + i` of tick `t`, sensor `i` lies below `ticks * n`, after the earlier ticks. */
  lemma IndexBound(t: nat, i: nat, n: nat, ticks: nat)
    requires t < ticks && i < n
    ensures t * n <= t * n + i < (t + 1) * n <= ticks * n
  {
    MulSucc(t, n);
    MonotoneMul(t + 1, ticks, n);
  }

  lemma MonotoneMul(a: nat, b: nat, n: nat)
    requires a <= b
    ensures a * n <= b * n
  {
  }

  /** A position below `ticks * n` splits into its tick `k / n` and sensor `k % n`. */
  lemma IndexSplit(k: nat, n: nat, ticks: nat) returns (t: nat, i: nat)
    requires k < ticks * n
    ensures n > 0 && t == k / n && i == k % n
    ensures k == t * n + i && i < n && t < ticks
  {
    t, i := k / n, k % n;
    if t >= ticks {
      MonotoneMul(ticks, t, n);
    }
  }

  // ---------------------------------------------------------------------------
  // Properties of the reference definition

  /** A tick contributes one reading per sensor. */
  lemma {:induction false} TickReadingsLength(run: Run, t: nat, m: nat)
    requires Covers(run, t + 1) && m <= |run.sensors|
    ensures |TickReadings(run, t, m)| == m
  {
    if m > 0 {
      TickReadingsLength(run, t, m - 1);
    }
  }

  /** Within a tick, the `i`-th reading belongs to the `i`-th sensor. */
  lemma {:induction false} TickReadingsAt(run: Run, t: nat, m: nat, i: nat)
    requires Covers(run, t + 1) && m <= |run.sensors| && i < m
    ensures |TickReadings(run, t, m)| == m
    ensures TickReadings(run, t, m)[i] == ReadingOf(run, t, i)
  {
    TickReadingsLength(run, t, m);
    if i < m - 1 {
      TickReadingsAt(run, t, m - 1, i);
    } else {
      TickReadingsLength(run, t, m - 1);
    }
  }

  /** The output holds exactly one reading per sensor per tick. */
  lemma {:induction false} ReadingsLength(run: Run, ticks: nat)
    requires Covers(run, ticks)
    ensures |Readings(run, ticks)| == ticks * |run.sensors|
  {
    if ticks > 0 {
      ReadingsLength(run, ticks - 1);
      TickReadingsLength(run, ticks - 1, |run.sensors|);
      MulSucc(ticks - 1, |run.sensors|);
    }
  }

  /** The reading at position `t * |sensors| + i` is sensor `i`'s reading on tick `t`. */
  lemma {:induction false} ReadingsAt(run: Run, ticks: nat, t: nat, i: nat)
    requires Covers(run, ticks) && t < ticks && i < |run.sensors|
    ensures t * |run.sensors| + i < |Readings(run, ticks)| == ticks * |run.sensors|
    ensures Readings(run, ticks)[t * |run.sensors| + i] == ReadingOf(run, t, i)
  {
    var n := |run.sensors|;
    ReadingsLength(run, ticks);
    ReadingsLength(run, ticks - 1);
    IndexBound(t, i, n, ticks);
    if t < ticks - 1 {
      ReadingsAt(run, ticks - 1, t, i);
    } else {
      TickReadingsAt(run, ticks - 1, n, i);
    }
  }

  lemma ReadingsAtPosition(run: Run, ticks: nat, k: nat, t: nat, i: nat)
    requires Covers(run, ticks) && t < ticks && i < |run.sensors| && k == t * |run.sensors| + i
    ensures k < |Readings(run, ticks)| && Readings(run, ticks)[k] == ReadingOf(run, t, i)
  {
    ReadingsAt(run, ticks, t, i);
  }

  /** Position `k` of the output is reading `i = k % |sensors|` of tick `t = k / |sensors|`. */
  lemma ReadingsIndex(run: Run, ticks: nat, k: nat) returns (t: nat, i: nat)
    requires Covers(run, ticks) && k < |Readings(run, ticks)|
    ensures |run.sensors| > 0 && t == k / |run.sensors| && i == k % |run.sensors|
    ensures t < ticks && i < |run.sensors|
    ensures Readings(run, ticks)[k] == ReadingOf(run, t, i)
  {
    ReadingsLength(run, ticks);
    t, i := IndexSplit(k, |run.sensors|, ticks);
    ReadingsAtPosition(run, ticks, k, t, i);
  }

  /** Position `k` of the output carries sensor `k % |sensors|`, unchanged. */
  lemma ReadingsSensors(run: Run, ticks: nat)
    requires Covers(run, ticks)
    ensures forall k :: 0 <= k < |Readings(run, ticks)| ==>
              |run.sensors| > 0 && Readings(run, ticks)[k].sensor == run.sensors[k % |run.sensors|]
  {
    forall k | 0 <= k < |Readings(run, ticks)|
      ensures |run.sensors| > 0 && Readings(run, ticks)[k].sensor == run.sensors[k % |run.sensors|]
    {
      var t, i := ReadingsIndex(run, ticks, k);
      assert Readings(run, ticks)[k].sensor == run.sensors[i];
    }
  }

  /** Every emitted temperature lies in `[minTemp, maxTemp]`, whatever `startingTemp` is. */
  lemma ReadingsInBounds(run: Run, ticks: nat)
    requires Covers(run, ticks)
    requires run.params.minTemp <= run.params.maxTemp
    ensures forall k :: 0 <= k < |Readings(run, ticks)| ==>
              run.params.minTemp <= Readings(run, ticks)[k].temperature <= run.params.maxTemp
  {
    forall k | 0 <= k < |Readings(run, ticks)|
      ensures run.params.minTemp <= Readings(run, ticks)[k].temperature <= run.params.maxTemp
    {
      var t, i := ReadingsIndex(run, ticks, k);
      assert Readings(run, ticks)[k].temperature == TempAfter(run, i, t + 1);
    }
  }

  /** In simulate mode position `k` is stamped one tick after the start per elapsed tick. */
  lemma SimulatedReadingTimes(run: Run, ticks: nat)
    requires Covers(run, ticks) && run.clock.Simulated?
    ensures forall k :: 0 <= k < |Readings(run, ticks)| ==>
              |run.sensors| > 0 &&
              Readings(run, ticks)[k].time == run.clock.start + TickSeconds * (k / |run.sensors| + 1)
  {
    forall k | 0 <= k < |Readings(run, ticks)|
      ensures |run.sensors| > 0 &&
              Readings(run, ticks)[k].time == run.clock.start + TickSeconds * (k / |run.sensors| + 1)
    {
      var t, i := ReadingsIndex(run, ticks, k);
      assert Readings(run, ticks)[k].time == run.clock.start + TickSeconds * (t + 1);
    }
  }

  /**
   The per-sensor recurrence: on tick `t` a sensor starts from its previous
   emitted value (or `startingTemp` on tick 0) and takes one `Step`.
   */
  lemma ReadingRecurrence(run: Run, ticks: nat, t: nat, i: nat)
    requires Covers(run, ticks) && t < ticks && i < |run.sensors|
    ensures t * |run.sensors| + i < |Readings(run, ticks)|
    ensures t > 0 ==> (t - 1) * |run.sensors| + i < |Readings(run, ticks)|
    ensures var n := |run.sensors|;
            var prev := if t == 0 then run.params.startingTemp else Readings(run, ticks)[(t - 1) * n + i].temperature;
            Readings(run, ticks)[t * n + i].temperature == Step(run.params, prev, run.draws[t][i], t)
  {
    ReadingsAt(run, ticks, t, i);
    assert TempAfter(run, i, t + 1) == Step(run.params, TempAfter(run, i, t), run.draws[t][i], t);
    if t > 0 {
      ReadingsAt(run, ticks, t - 1, i);
    }
  }

  /** Two runs that hand a sensor the same draws give it the same history: sensors never interact. */
  lemma {:induction false} SensorsIndependent(run1: Run, run2: Run, i1: nat, i2: nat, ticks: nat)
    requires Covers(run1, ticks) && Covers(run2, ticks)
    requires i1 < |run1.sensors| && i2 < |run2.sensors|
    requires run1.params == run2.params
    requires forall t :: 0 <= t < ticks ==> run1.draws[t][i1] == run2.draws[t][i2]
    ensures TempAfter(run1, i1, ticks) == TempAfter(run2, i2, ticks)
  {
    if ticks > 0 {
      SensorsIndependent(run1, run2, i1, i2, ticks - 1);
    }
  }

  /** All readings of one tick carry the same time. */
  lemma SameTickSameTime(run: Run, ticks: nat, t: nat, i: nat, j: nat)
    requires Covers(run, ticks) && t < ticks && i < |run.sensors| && j < |run.sensors|
    ensures t * |run.sensors| + i < |Readings(run, ticks)| && t * |run.sensors| + j < |Readings(run, ticks)|
    ensures Readings(run, ticks)[t * |run.sensors| + i].time == Readings(run, ticks)[t * |run.sensors| + j].time
  {
    ReadingsAt(run, ticks, t, i);
    ReadingsAt(run, ticks, t, j);
  }

  /** In simulate mode, readings of a later tick are strictly later. */
  lemma SimulatedTimesIncrease(run: Run, ticks: nat, k1: nat, k2: nat)
    requires run.clock.Simulated? && Covers(run, ticks) && |run.sensors| > 0
    requires k1 < |Readings(run, ticks)| && k2 < |Readings(run, ticks)|
    requires k1 / |run.sensors| < k2 / |run.sensors|
    ensures Readings(run, ticks)[k1].time < Readings(run, ticks)[k2].time
  {
    var t1, i1 := ReadingsIndex(run, ticks, k1);
    var t2, i2 := ReadingsIndex(run, ticks, k2);
  }

  /** In simulate mode, consecutive readings of one sensor are exactly one tick apart. */
  lemma SimulatedSensorSpacing(run: Run, ticks: nat, t: nat, i: nat)
    requires run.clock.Simulated? && Covers(run, ticks) && t + 1 < ticks && i < |run.sensors|
    ensures (t + 1) * |run.sensors| + i < |Readings(run, ticks)|
    ensures Readings(run, ticks)[(t + 1) * |run.sensors| + i].time
         == Readings(run, ticks)[t * |run.sensors| + i].time + TickSeconds
  {
    ReadingsAt(run, ticks, t, i);
    ReadingsAt(run, ticks, t + 1, i);
  }

  // ---------------------------------------------------------------------------
  // The ramp phase

  /** Total ramp rise over the `count` ticks starting at `from`. */
  function RampTotal(from: nat, count: nat, maxTempIncrease: real): real {
    if count == 0 then 0.0
    else RampTotal(from, count - 1, maxTempIncrease)
         + (if InRampPhase(from + count - 1) then IncreasePerMinute(maxTempIncrease) else 0.0)
  }

  /** Within an hour, tick `60 * h + m` is a ramp tick exactly when `m < 5`. */
  lemma RampPhaseWithinHour(h: nat, m: nat)
    requires m < ReadingsPerHour
    ensures InRampPhase(ReadingsPerHour * h + m) <==> m < IncreasePeriodMinutes
  {
    assert (ReadingsPerHour * h + m) % ReadingsPerHour == m;
  }

  /** The first `m` ticks of an hour add `min(m, 5)` ramp increments. */
  lemma {:induction false} RampTotalPrefix(h: nat, m: nat, maxTempIncrease: real)
    requires m <= ReadingsPerHour
    ensures RampTotal(ReadingsPerHour * h, m, maxTempIncrease)
         == (if m < IncreasePeriodMinutes then m else IncreasePeriodMinutes) as real
            * IncreasePerMinute(maxTempIncrease)
  {
    if m > 0 {
      RampTotalPrefix(h, m - 1, maxTempIncrease);
      RampPhaseWithinHour(h, m - 1);
    }
  }

  /** Over every full hour the ramp phase adds exactly `maxTempIncrease`. */
  lemma RampPerHour(h: nat, maxTempIncrease: real)
    ensures RampTotal(ReadingsPerHour * h, ReadingsPerHour, maxTempIncrease) == maxTempIncrease
  {
    RampTotalPrefix(h, ReadingsPerHour, maxTempIncrease);
  }
}

# Temperature simulator: the reading generator in Dafny

This project models the core of a Go temperature simulator. The simulator
produces time-stamped temperature readings for a list of sensors.

- `simulator.dfy` (module `Simulator`) models `GenerateTemperatureReadings`.
  Every sensor does a clamped random walk that starts at `startingTemp`. On
  every tick, each sensor's temperature gets a random fluctuation. During the
  ramp phase (the first 5 ticks of every 60) it also rises by
  `maxTempIncrease / 5`. The result is clamped to `[minTemp, maxTemp]`,
  becomes the sensor's new state and is emitted as a reading. Readings are
  ordered tick by tick, and within a tick by sensor.
  - A functional reference (`TempAfter`, `ReadingOf`, `TickReadings`,
    `Readings`) states what the output must be.
  - The method `GenerateTemperatureReadings` mirrors the Go loops
    statement by statement; the per-tick sensor loop is the method
    `AdvanceTick`. Both are proved equal to the reference, and the
    generator is proved to satisfy the length, order, bounds and
    timestamp properties.
- `config.dfy` (module `SimConfig`) models `LoadConfigAndSensors` after
  decoding, as a check on an abstract decode outcome. It also models
  `SetupLogger` as a function from one logger state to the next.
- `results.dfy` (module `Results`) holds the `Option` and `Result` wrappers.

Inputs that Go takes from its environment are parameters here:
- The random source is a matrix `draws`. `draws[t][i]` is the `r.Float64()`
  value used for sensor `i` on tick `t`; Go consumes its stream in exactly
  this order.
- In simulate mode, the clock is a start time in whole seconds. Otherwise it
  is a sequence of wall-clock samples, one per tick.
- Timestamps stay integers; turning them into text is not modelled.

Temperatures are Dafny `real`, so the model has no floating-point rounding.
The generator itself never rounds: rounding to two decimals happens only
when a reading is turned into JSON.

Behaviour of the code that the model keeps as it is:
- The code does not reject `minTemp > maxTemp`, an empty sensor list or a
  zero `totalReadings`, and neither does the model.
  - The bounds property is stated as `minTemp <= maxTemp ==> …`.
  - The generator's only precondition excludes the input on which Go's
    `make` panics: a negative `totalReadings` with at least one sensor.
- A fluctuation lies in `[-a, a)`, not `[-a, a]`, because `r.Float64()`
  never returns 1.
- Readings are not rounded in memory.

## Model

| member | source | states |
|---|---|---|
| `Simulator.GenerateTemperatureReadings` | internal/simulator/simulator.go:72-151 | The output has exactly `totalReadings * len(sensors)` readings, so it is empty when either is zero. Position `k` carries `sensors[k % n]` unchanged. If `minTemp <= maxTemp`, every temperature lies in `[minTemp, maxTemp]`. In simulate mode, position `k` is stamped `start + 60 * (k / n + 1)`. The error is always nil. The output equals the reference `Readings` |
| `Simulator.AdvanceTick` | internal/simulator/simulator.go:114-146 | One pass of the sensor loop: each sensor's new state is its temperature after one more tick, and the tick appends exactly one reading per sensor, in sensor order, stamped with the tick's time |
| `Simulator.Clamp` | internal/simulator/simulator.go:129-134 | For a non-empty interval, the clamped value lies inside it. A value already in range is returned unchanged |
| `Simulator.ClampNearest` | internal/simulator/simulator.go:129-134 | Clamping picks the point of `[lo, hi]` nearest to the input |
| `Simulator.ClampIdempotent` | internal/simulator/simulator.go:129-134 | Clamping an already clamped value changes nothing |
| `Simulator.Fluctuation` | internal/simulator/simulator.go:120-122 | For a draw in `[0, 1)` and a positive amplitude `a`, the fluctuation lies in `[-a, a)`. A zero amplitude gives no fluctuation |
| `Simulator.IncreasePerMinute` | internal/simulator/simulator.go:91-92 | The per-tick ramp increment, taken five times, is exactly `maxTempIncrease` |
| `Simulator.Step` | internal/simulator/simulator.go:118-137 | One update of one sensor stays within `[minTemp, maxTemp]` when that interval is non-empty, whatever the previous value |
| `Simulator.ReadingsLength` | internal/simulator/simulator.go:88-147 | Each tick contributes one reading per sensor, so after `T` ticks there are `T * len(sensors)` readings |
| `Simulator.ReadingsAt` | internal/simulator/simulator.go:102-146 | The reading at index `t * n + i` is sensor `i`'s reading on tick `t`: that tick's time, that sensor's temperature after `t + 1` steps, and `sensors[i]` |
| `Simulator.ReadingsIndex` | internal/simulator/simulator.go:102-146 | Any valid index `k` splits into tick `k / n` and sensor `k % n`, and the reading there is that sensor's reading on that tick |
| `Simulator.ReadingsSensors` | internal/simulator/simulator.go:117-145 | Every reading carries the sensor at its position modulo the sensor count, unchanged |
| `Simulator.ReadingsInBounds` | internal/simulator/simulator.go:129-134 | When `minTemp <= maxTemp`, every emitted temperature lies in `[minTemp, maxTemp]`, even when `startingTemp` lies outside it |
| `Simulator.ReadingRecurrence` | internal/simulator/simulator.go:83-137 | The temperature at tick `t` of sensor `i` is one `Step` from that sensor's reading at tick `t - 1`, or from `startingTemp` at tick 0 |
| `Simulator.SensorsIndependent` | internal/simulator/simulator.go:117-137 | A sensor's temperature history depends only on the parameters and its own draws, never on other sensors |
| `Simulator.SameTickSameTime` | internal/simulator/simulator.go:107-141 | All readings of one tick carry the same timestamp |
| `Simulator.SimulatedReadingTimes` | internal/simulator/simulator.go:93-112 | In simulate mode, reading `k` is stamped one tick per elapsed tick after the start, counting its own tick |
| `Simulator.SimulatedTimesIncrease` | internal/simulator/simulator.go:107-112 | In simulate mode, every reading of a later tick has a strictly later timestamp |
| `Simulator.SimulatedSensorSpacing` | internal/simulator/simulator.go:107-112 | In simulate mode, consecutive readings of one sensor are exactly 60 seconds apart |
| `Simulator.RampPhaseWithinHour` | internal/simulator/simulator.go:114-115 | Tick `60 * h + m` with `m < 60` is in the ramp phase exactly when `m < 5` |
| `Simulator.RampTotalPrefix` | internal/simulator/simulator.go:114-127 | The first `m` ticks of an hour add `min(m, 5)` ramp increments |
| `Simulator.RampPerHour` | internal/simulator/simulator.go:114-127 | Over each full hour, the ramp phase adds exactly `maxTempIncrease` |
| `SimConfig.LoadConfigAndSensors` | internal/simulator/config.go:55-93 | Open failure and decode failure each give their own error and no config. A decoded file with zero sensors is rejected. Success happens exactly when decoding succeeded with at least one sensor, and it returns the decoded config unchanged |
| `SimConfig.LoadErrorMessageInjective` | internal/simulator/config.go:57-86 | The three failures never produce the same error text, and two errors of one kind with different causes differ too |
| `SimConfig.SetupLogger` | internal/simulator/config.go:103-123 | The flags are always set to date, time and short file. "debug", "info", "warn" and "error", compared after lower-casing, select "DEBUG: ", "INFO: ", "WARN: " and "ERROR: ". Any other level returns an error naming the level and leaves the prefix unchanged |
| `SimConfig.SetupLoggerPrefixIsUpperLevel` | internal/simulator/config.go:108-116 | On success, the prefix is the upper-cased level followed by ": " |
| `SimConfig.SetupLoggerCaseInsensitive` | internal/simulator/config.go:108-118 | Two levels that differ only in letter case configure the logger identically and both succeed or both fail |
| `SimConfig.SetupLoggerAcceptsUpperCase` | internal/simulator/config.go:108-116 | Mixed- and upper-case spellings such as "DEBUG" and "Info" are accepted |
| `SimConfig.SetupLoggerIdempotent` | internal/simulator/config.go:103-123 | Setting up the same level twice leaves the logger as setting it up once |
| `SimConfig.ToLowerAsciiIdempotent` | internal/simulator/config.go:108 | Lower-casing an already lower-cased level changes nothing |

## Left out

- Randomness: seeding `rand.New` with the current time is not modelled. The draws are a caller-supplied matrix, with one value per tick and sensor.
- Wall clock and sleeping: `time.Now`, `time.Sleep(60s)` and the zero time before the first tick are not modelled. The clock is a parameter.
- Timestamp formatting with the `"2006-01-02 15:04:05"` layout: times stay integer seconds.
- Floating point: temperatures are exact reals, so `float64` rounding in the additions and in `maxTempIncrease / 5` is not modelled. Reals have no NaN or ±Inf either. Go's `<` / `>` clamp lets NaN through: a NaN `startingTemp` or `maxTempIncrease`, or a NaN or infinite `tempFluctuation` (`u*2*Inf - Inf` is NaN), makes every later reading NaN. The bound that `GenerateTemperatureReadings` and `ReadingsInBounds` prove therefore holds in Go only for finite inputs. Decoding JSON cannot produce such values, but the exported Go function accepts them.
- Integer width: `totalReadings * len(sensors)` cannot overflow here as Go's `int` could. That only happens for inputs far beyond any practical run.
- `Temperature.MarshalJSON` and `UnmarshalJSON` are not modelled, so neither is the two-decimal output format or the serialize-then-parse round trip. They are float formatting and parsing.
- `SaveToJSON` is not modelled: file creation, buffering, `json.Marshal` and writing are I/O.
- The file opening and JSON decoding inside `LoadConfigAndSensors` are not modelled: they become the `DecodeOutcome` input. The deferred close and its logged error are left out as well.
- All `log.Printf` calls are not modelled. They only write messages.
- SimConfig.ToLowerAscii: lower-cases only ASCII letters, whereas Go's `strings.ToLower` also folds non-ASCII letters. A non-ASCII spelling of a level is therefore rejected here even where Go would accept it.
- The command-line and HTTP front ends in cmd/ are not modelled: they parse flags, serve HTTP and exit the process. They also use a `LogFilePath` field and a two-argument `SetupLogger` that this `Config` does not define.

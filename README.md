# Canal-top solar telemetry pipeline, in Dafny

This project models the telemetry pipeline behind the dashboard of a
canal-top solar plant: the `useTelemetry` hook in
`src/hooks/useTelemetry.tsx`. Every 100 ms the hook does the following:

1. It generates a simulated sensor reading: power, panel and ambient
   temperature, humidity, irradiance, water temperature and silt level.
2. It pushes the reading onto a buffer.
3. At most every 500 ms it averages the buffer field by field.
4. It blends that average with the previous output by an exponential
   moving average (α = 0.3), then clamps humidity, irradiance, water
   temperature and silt.
5. It publishes the blended sample as the current telemetry.
6. It adds the interval's saved water (a simplified Penman-Monteith
   evaporation estimate under 15 000 m² of panels) and generated energy
   to running totals, and derives the CO₂ offset (0.85 kg/kWh), the
   efficiency gain and the panel-cooling benefit.
7. It appends the sample to a 60-entry history window.

Modules, one per part of the hook:

| module | models |
|---|---|
| `Samples` | the `TelemetryData` record, its fields and the physical floors and caps each field is kept in |
| `Physics` | `calculateEvaporationRate` and `calculateEfficiencyDelta` |
| `Generator` | `generateSimulatedData` |
| `Aggregation` | the field-wise `reduce` average of the buffer, as a loop proved against a fold |
| `Smoothing` | `smoothData` |
| `History` | the `[...prev.slice(-59), smoothed]` history update |
| `Metrics` | `DerivedMetrics` and the arithmetic of `updateMetrics` |
| `Pipeline` | the hook's state as the class `TelemetryPipeline`, with one method per step of the interval callback |

The environment is passed in as parameters:

- `Math.exp(…)` in the evaporation formula is a value `expVal > 0`.
- `Math.sin(…)` of the hour is any real `sinVal`.
- The six `Math.random()` calls of one reading are a `Draws` value, each draw in `[0, 1)`.
- `Date.now()` and the three `new Date()` values (the placeholder reading's at mount, each raw reading's and each averaged reading's) are integers.
- `getHours()` is `hour`.

The class carries a ghost record `emitted` of every sample it has
published. Its invariant `Valid` is `Consistent` applied to the fields and that record, and it ties the state to the record:

- the history is the newest 60 entries of the record;
- `lastData` is the record's last element;
- the energy total is the sum of the record's energy increments;
- every sample in the record and in the buffer, and the current
  telemetry, lies in its physical range.

Three behaviours of the code are easy to misread:

- Humidity and silt are clamped already by the generator (lines 159 and 162), not only by the smoothing step.
- The averaged sample's timestamp is a fresh `new Date()` (line 226), not taken from the buffered readings.
- A night-time reading is not always zero. Its irradiance is the noise term `max(0, (r - 0.5)·100)`. That is zero, with zero power, if and only if the draw `r` is at most one half (`Generator.NightReading`).

## Model

Some functions are reference definitions that the rows below prove things about and that carry no promise of their own:

- `Aggregation.FieldSum` is the left fold that `reduce((a, b) => a + b.field, 0)` computes (lines 219-225).
- `Aggregation.Mean` is that sum divided by the buffer length.
- `History.Newest` is the newest 60 entries of a stream.
- `Metrics.EnergyOf` is the sum of the energy increments of a stream of emissions.

| member | source | states |
|---|---|---|
| Physics.SaturationPressure | src/hooks/useTelemetry.tsx:35 | the saturation vapour pressure is positive for every positive exponential value |
| Physics.Slope | src/hooks/useTelemetry.tsx:39 | the slope of the vapour-pressure curve is positive whenever the pressure is positive and the temperature is above -237.3 |
| Physics.EvapRate | src/hooks/useTelemetry.tsx:23-53 | the Penman-Monteith estimate of water saved per hour is strictly positive for every humidity up to 100 % and every positive shaded area |
| Physics.EfficiencyDelta | src/hooks/useTelemetry.tsx:56-73 | the efficiency gain is exactly 13.5 percentage points (0.0045·30·100) whatever the panel and water temperatures |
| Generator.Generate | src/hooks/useTelemetry.tsx:125-165 | for any hour, any draws and any sine value the reading lies in its physical range (power, irradiance ≥ 0, panel ≥ 20, ambient ≥ 15, water ≥ 15, humidity in [30, 100], silt in [0, 100]) and carries the given timestamp |
| Generator.NightReading | src/hooks/useTelemetry.tsx:126-139 | outside 06:00-18:59 irradiance stays below 50 and power below 2.7 kW; each is exactly zero if and only if the irradiance noise draw is at most 0.5 |
| Generator.SiltRange | src/hooks/useTelemetry.tsx:153 | with draws in [0, 1) silt lies in [10, 60), and is at least 40 when the spike fires |
| Generator.PowerFollowsIrradiance | src/hooks/useTelemetry.tsx:134-139 | with draws in [0, 1) power lies between 4.5 % and 5.25 % of the irradiance value |
| Aggregation.SumField | src/hooks/useTelemetry.tsx:219-225 | the loop's total over the buffer equals the left fold `reduce((a, b) => a + b.field, 0)` |
| Aggregation.SumAtLeast | src/hooks/useTelemetry.tsx:219-225 | when every buffered value is at least lo, the sum is at least length·lo |
| Aggregation.SumAtMost | src/hooks/useTelemetry.tsx:219-225 | when every buffered value is at most hi, the sum is at most length·hi |
| Aggregation.MeanAtLeast | src/hooks/useTelemetry.tsx:219-225 | the mean of a non-empty buffer is at least a common lower bound of its values |
| Aggregation.MeanAtMost | src/hooks/useTelemetry.tsx:219-225 | the mean of a non-empty buffer is at most a common upper bound of its values |
| Aggregation.MeanInRange | src/hooks/useTelemetry.tsx:218-227 | the mean of an in-range buffer keeps the field's floor, and its cap of 100 for humidity and silt |
| Aggregation.Average | src/hooks/useTelemetry.tsx:218-227 | the field-wise average of in-range readings is in range and is stamped with the fresh timestamp |
| Aggregation.AverageBuffer | src/hooks/useTelemetry.tsx:218-227 | the seven summing loops divided by the buffer length give exactly the field-wise mean |
| Aggregation.AverageOfSteadyBuffer | src/hooks/useTelemetry.tsx:218-227 | averaging a buffer of identical readings returns that reading, restamped |
| Smoothing.Blend | src/hooks/useTelemetry.tsx:109-119 | `last + 0.3·(new - last)` lies between last and new, and its distance to new is 0.7 of the old distance |
| Smoothing.Smooth | src/hooks/useTelemetry.tsx:105-122 | with no previous output the new sample is returned unchanged; otherwise power, panel and ambient keep exactly 0.7 of their gap to the new value (so they equal `last + 0.3·(new - last)` and lie between previous and new), humidity and silt are that blend clamped to [30, 100] and [0, 100], irradiance and water temperature that blend floored at 0 and 15; the timestamp is always the new sample's |
| Smoothing.SmoothInBounds | src/hooks/useTelemetry.tsx:111-121 | smoothing an in-range sample against an in-range previous output gives an in-range sample |
| Smoothing.SmoothSteady | src/hooks/useTelemetry.tsx:111-121 | when the new sample equals the previous output except for its timestamp, smoothing returns the new sample: a steady input is a fixed point |
| Smoothing.IterateGap | src/hooks/useTelemetry.tsx:109-115 | after k blends towards a constant v, the distance to v is 0.7^k times the initial distance |
| History.Append | src/hooks/useTelemetry.tsx:236 | the new history has min(old length + 1, 60) entries and ends with the new sample |
| History.AppendKeepsNewest | src/hooks/useTelemetry.tsx:236 | every entry before the new sample is, in order, one of the newest entries of the old history |
| History.Newest | src/hooks/useTelemetry.tsx:235-236 | the window of a stream holds at most 60 entries |
| History.AppendNewest | src/hooks/useTelemetry.tsx:236 | appending to the window of a stream gives the window of the extended stream |
| History.Window | src/hooks/useTelemetry.tsx:236 | applying the history update to every sample of a stream, from an empty history, leaves min(length, 60) entries ending with the last sample |
| History.WindowIsNewest | src/hooks/useTelemetry.tsx:235-236 | appending a whole stream one sample at a time to an empty history leaves exactly its newest 60 samples |
| History.OldestAfterHundred | src/hooks/useTelemetry.tsx:235-236 | after 100 emissions the history is full and its oldest entry is the 41st emission |
| Metrics.WaterIncrement | src/hooks/useTelemetry.tsx:168-181 | the water saved in one 0.5 s interval is strictly positive whenever humidity is at most 100 % |
| Metrics.EnergyIncrement | src/hooks/useTelemetry.tsx:183-185 | the interval's energy is the power times 0.5/3600 h, non-negative for non-negative power |
| Metrics.Published | src/hooks/useTelemetry.tsx:187-202 | the published metrics carry the totals, the CO₂ offset is 0.85 times the energy total, the efficiency gain is 13.5, and the cooling benefit is `max(0, 30 - (panel - ambient))` |
| Metrics.EnergyOfSnoc | src/hooks/useTelemetry.tsx:184-185 | one more emission adds its energy increment to the energy of the stream |
| Metrics.EnergyMonotone | src/hooks/useTelemetry.tsx:184-185 | over emissions of non-negative power, the energy total never decreases |
| Pipeline.TelemetryPipeline.constructor | src/hooks/useTelemetry.tsx:76-102 | the initial placeholder reading, zero metrics, empty history and buffer, zero totals, no previous output, gate time set to the mount time; the invariant holds |
| Pipeline.TelemetryPipeline.UpdateMetrics | src/hooks/useTelemetry.tsx:168-203 | each total grows by its increment; water strictly grows when humidity is at most 100 %, energy never shrinks for non-negative power; the metrics are published from the new totals |
| Pipeline.PublishKeepsConsistent | src/hooks/useTelemetry.tsx:229-239 | publishing an in-range sample from a consistent state gives a consistent state: the history stays the newest 60 emissions, the previous output is the last emission, the energy total is the energy of all emissions, and the metrics carry the new totals |
| Pipeline.TelemetryPipeline.Record | src/hooks/useTelemetry.tsx:236 | the history gains the sample under the 60-entry rule and the record of emissions gains it at the end |
| Pipeline.TelemetryPipeline.Publish | src/hooks/useTelemetry.tsx:229-239 | the sample becomes the telemetry and the previous output, the totals and history take it in, the buffer is cleared and the gate time is now; the invariant is kept |
| Pipeline.TelemetryPipeline.Emit | src/hooks/useTelemetry.tsx:217-240 | the published sample is the smoothed field-wise average of the buffer; the invariant is kept, water grows strictly and energy never shrinks |
| Pipeline.TelemetryPipeline.Tick | src/hooks/useTelemetry.tsx:207-242 | below the 500 ms gate only the buffer grows, by the generated reading; at the gate the buffer including that reading is averaged, smoothed and published, then cleared; in both cases the invariant is kept and the totals never decrease |

## Left out

- React plumbing: `useState`, `useRef`, `useCallback`, `useEffect`, `setInterval` and `clearInterval` are left out. One firing of the interval is one `Tick` call. State setters take effect at once rather than at the next render.
- Environment values: `Math.exp`, `Math.sin`, `Math.random`, `Date.now()`, `new Date()` and `getHours()` are parameters. Their values are not computed. `Math.PI` appears only inside the sine argument.
- Arithmetic: IEEE-754 doubles are modelled as exact reals. Rounding, `NaN` and `Infinity` are not modelled.
- Physics.EvapRate: requires the temperature to be above -237.3 °C, so the model says nothing about colder inputs. At -237.3 the source divides by zero and yields a non-finite value. Below -237.3 it still returns finite values, except at -273, where its second divisor `T + 273` is zero. Excluding the whole range keeps both divisors non-zero. The pipeline never calls it there, because every reading's ambient temperature is at least 15.
- Valid: does not carry the relation between `telemetry` and `lastData`. `Tick`, `Emit` and `Publish` state it after each emission instead.
- The value returned by the hook, `{ telemetry, metrics, historicalData }`, is the three fields of the class. It has no operation of its own.
- Dashboard components, authentication, the database client, the map and the control panel consume or surround the hook's output. They are not part of this model.

# homebridge-daylight: the daylight engine in Dafny

homebridge-daylight is a Homebridge accessory that simulates an ambient-light
sensor. Its `DaylightAccessory.getAmbientLightLevel` takes today's and
tomorrow's sunrise, end of sunrise, start of sunset and sunset for the
configured location. For each of these events it keeps today's instant if that
is still to come and otherwise takes tomorrow's. It then classifies the current
instant as rising, up, setting or set. From that it derives a light ratio and
the instant of the next update. It maps the ratio to an illuminance between
0.0001 and 100000 lux. Finally it either answers a characteristic read or
publishes the value and arms a timer that calls it again.

This project models that logic in four modules:

- `LightLevel` (`light_level.dfy`) holds the exact ratio `num/den` and the
  mapping `Math.round(1 + ratio * 999999999) / 10000`. The rounded value is an
  integer count of 0.0001-lux units, and `Math.round` is round-half-up.
- `SunEngine` (`sun_engine.dfy`) holds boundary selection, the four-way
  classification over an arbitrary quadruple, and their composition.
- `Accessory` (`accessory.dfy`) holds the constructor's location check and a
  class. The class records the value published on the service and the delays
  of the armed timers. The same state as a value, `SensorState`, gives the
  transitions as functions: one timer firing (`Fire`) and a run of the
  self-rescheduling loop (`Run`).
- `Wrappers` (`wrappers.dfy`) holds `Option` and `Result`.

Instants are integer milliseconds. The current instant and both days' sun
events are parameters.

The central proved property is `SunEngine.AlwaysNight`. The source selects
tomorrow's instant for every event that has already passed today. So whenever
tomorrow's events are all still to come, every effective boundary lies strictly
after now. None of the guards `now > times.sunrise`, `now > times.sunriseEnd`
and `now > times.sunsetStart` can then hold. So whenever all four of
tomorrow's events are after now (the hypothesis of `AlwaysNight`), the engine
as written reports night: 0.0001 lux, with the next update at the effective
sunrise. The model keeps this behaviour. Nothing in index.js guarantees that
hypothesis; it depends on what the ephemeris returns. When a tomorrow event is
at or before now, the rising, up and setting branches can run, and the set
branch can arm a delay that is zero or negative. These branches are modelled
and proved on arbitrary quadruples (`SunEngine.Classify` and the lemmas after
it).

Consequences of index.js that the model keeps:

- An instant exactly equal to `sunriseEnd` is not classified "up". The guard
  `now > times.sunriseEnd` is strict, so on an ordered quadruple every boundary
  instant falls through to "set" (`SunEngine.BoundaryIsSet`).
- At ratio 1 the level is 1000000000 units, which is 100000 lux.
- A ratio of one half gives 500000001 units, which is 50000.0001 lux.
- Once armed, a timer is never cancelled. The coordinates are only checked
  to be finite numbers, and the delay `nextUpdate - now` is used as computed.
  Zero-width transitions need no special case: the guards' strict inequalities
  make each divisor positive.

## Model

| member | source | states |
|---|---|---|
| `LightLevel.RoundHalfUp` | index.js:87 | `Math.round` of a rational a/b is the integer r with r - 1/2 <= a/b < r + 1/2, i.e. the nearest integer with halves rounded up |
| `LightLevel.UnitsRange` | index.js:86-87 | for every ratio in [0, 1] the level `Units` (line 87's `Math.round(1 + ratio * 999999999)`) lies in [1, 1000000000] units of 0.0001 lux |
| `LightLevel.UnitsAtEnds` | index.js:86-87 | ratio 0 gives exactly 1 unit and ratio 1 exactly 1000000000 units, whatever the denominator |
| `LightLevel.UnitsMonotone` | index.js:87 | the level is monotone non-decreasing in the ratio, across any two denominators |
| `LightLevel.LuxRange` | index.js:86-87 | the published lux value `Lux` (line 87's `/ 10000`) lies in [0.0001, 100000], is 0.0001 at ratio 0 and 100000 at ratio 1 |
| `LightLevel.HalfRoundsUp` | index.js:87 | ratio 1/2 maps to 500000001 units: the half is rounded up |
| `SunEngine.Pick` | index.js:46-49 | today's instant is taken iff it is strictly after now, otherwise tomorrow's; the result is after now iff either day's instant is |
| `SunEngine.SelectTimes` | index.js:45-50 | each of the four effective events is chosen independently by that rule; if all of tomorrow's events are after now, all four effective events are after now |
| `SunEngine.Classify` | index.js:11-84 | the guards are evaluated in order with strict inequalities and anything they miss is Set. Rising and setting ratios are (now - sunrise)/(sunriseEnd - sunrise) and (sunset - now)/(sunset - sunsetStart), with a positive divisor and a value strictly between 0 and 1. Up has ratio 1 and Set ratio 0. The next update is now + 1000 in rising and setting, sunsetStart (strictly after now) in up, and sunrise in set |
| `SunEngine.OrderedPhases` | index.js:55-84 | on a quadruple in natural order each phase holds exactly when now is inside its own open interval, and Set exactly when it is in none |
| `SunEngine.BoundaryExcluded` | index.js:55-84 | an instant equal to a boundary never matches an interval that boundary delimits |
| `SunEngine.BoundaryIsSet` | index.js:55-84 | on a quadruple in natural order an instant equal to any of the four boundaries is classified Set |
| `SunEngine.NothingPassedIsSet` | index.js:55-84 | if none of sunrise, sunriseEnd, sunsetStart is before now, the chain reaches the set branch |
| `SunEngine.ClassifiedUnitsRange` | index.js:52-87 | whatever branch is taken, the level lies in [1, 1000000000] units |
| `SunEngine.AlwaysNight` | index.js:45-87 | `Evaluate`, selection followed by classification, with tomorrow's events all after now, always takes the set branch: ratio 0, level 1 unit, next update the effective sunrise, strictly after now |
| `Accessory.ValidateConfig` | index.js:19-23 | construction fails, with the source's message, exactly when the location is missing or a coordinate is not finite; there is no range check |
| `Accessory.DaylightAccessory.constructor` | index.js:14-27 | a constructed accessory keeps its name and location, has published nothing and has no timer armed |
| `Accessory.DaylightAccessory.Create` | index.js:14-27 | construction throws exactly when location validation fails; otherwise yields a fresh accessory with that location |
| `Accessory.DaylightAccessory.GetAmbientLightLevel` | index.js:29-101 | with a callback the computed level is delivered and the state is unchanged, so a read leaves the pending timers alone; without one the state becomes `PublishAndArm` of the old state: the level (`LightLevelAt`) is published and exactly one timer is appended, with delay nextUpdate - now |
| `Accessory.DaylightAccessory.FireTimer` | index.js:100 | the object's state after timer k fires is `Fire` of its state before; the number of pending timers is unchanged |
| `Accessory.Fire` | index.js:91-101 | one firing removes timer k, keeps the other pending delays in order, publishes the computed level and appends one delay nextUpdate - now, so the number of pending timers is unchanged |
| `Accessory.Run` | index.js:100 | over any sequence of firings of the self-rescheduling loop the number of pending timers never changes |
| `Accessory.NightForever` | index.js:45-101 | over any run in which tomorrow's events are always still to come, the characteristic ends at 0.0001 lux and every pending delay stays strictly positive |
| `Accessory.NightPublication` | index.js:45-101 | with tomorrow's events all after now, every published value is 0.0001 lux and the re-armed delay is strictly positive |

## Left out

- `suncalc.getTimes` (index.js:34-43): the ephemeris is a separate library. Today's and tomorrow's four instants are parameters.
- `Date.today()` and `addDays` from datejs (index.js:35, 40): calendar arithmetic from a library. `now` is a parameter.
- Floating-point arithmetic: the ratio is an exact rational and `Math.round` is exact round-half-up. Rounding errors of `1 + ratio * 999999999` in double precision are not modelled. The final division by 10000 is an exact real, not the nearest double.
- NaN sun times, which suncalc returns where the sun never rises or sets: the model has integer instants only.
- `SunEngine.Classify`: in JavaScript, `now + UPDATE_FREQUENCY` (index.js:63, 79) adds a number to a `Date`, which concatenates strings, so the timer delay `nextUpdate - now` is NaN. The model uses the evident meaning, now plus 1000 ms. Whenever all four of tomorrow's events are after now, both branches are unreachable after selection (`SunEngine.AlwaysNight`). When the ephemeris returns a tomorrow event at or before now they can run, and there the source's delay is NaN where the model records 1000.
- `setTimeout` as a real timer: a timer is a recorded delay. When each timer fires, and in which order, is chosen by the caller of `FireTimer`.
- Logging (`this.log`) throughout.
- Homebridge wiring: `getServices` (index.js:110-133), `getStatusActive` (index.js:104-108, always answers true), the `service`, `services` and `log` fields, Characteristic and Service objects, and `registerAccessory` (index.js:136).
- `Accessory.DaylightAccessory.GetAmbientLightLevel`: the callback's first argument is always null, so the model returns only the value. The publish path assumes the service has been attached, as `getServices` does before its first call.

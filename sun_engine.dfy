/**
 * The daylight engine of DaylightAccessory.getAmbientLightLevel (index.js):
 * choose an effective instant for each of the four sun events, classify the
 * current instant against them, and derive the light ratio and the instant of
 * the next update.
 *
 * Instants are integer milliseconds on one timeline. The ephemeris that yields
 * today's and tomorrow's sun events is outside the model: both quadruples are
 * parameters, and so is the current instant.
 */
module SunEngine {
  import opened LightLevel

  /** Milliseconds between updates during a transition (UPDATE_FREQUENCY). */
  const UPDATE_FREQUENCY: int := 1000

  /** The four sun events the engine uses, for one day and one location. */
  datatype SunTimes = SunTimes(sunrise: int, sunriseEnd: int, sunsetStart: int, sunset: int)

  /** Names of the four sun events. */
  datatype Event = Sunrise | SunriseEnd | SunsetStart | Sunset

  /** The instant of event e in t. */
  function At(t: SunTimes, e: Event): (i: int)
  {
    match e
    case Sunrise => t.sunrise
    case SunriseEnd => t.sunriseEnd
    case SunsetStart => t.sunsetStart
    case Sunset => t.sunset
  }

  /** Every event of t lies strictly after now. */
  predicate AllAfter(t: SunTimes, now: int)
  {
    now < t.sunrise && now < t.sunriseEnd && now < t.sunsetStart && now < t.sunset
  }

  /** The events of t come in their natural order (instants may coincide). */
  predicate Ordered(t: SunTimes)
  {
    t.sunrise <= t.sunriseEnd <= t.sunsetStart <= t.sunset
  }

  // ---------------------------------------------------------------------
  // Boundary selection

  /** One ternary of the selection: today's instant if it is still to come, else tomorrow's. */
  function Pick(now: int, today: int, tomorrow: int): (r: int)
    ensures today > now ==> r == today
    ensures today <= now ==> r == tomorrow
    ensures r > now <==> today > now || tomorrow > now
  {
    if today > now then today else tomorrow
  }

  /** The effective quadruple `times`: each event picked independently. */
  function SelectTimes(now: int, today: SunTimes, tomorrow: SunTimes): (t: SunTimes)
    ensures forall e :: At(t, e) == Pick(now, At(today, e), At(tomorrow, e))
    ensures forall e :: At(t, e) > now <==> At(today, e) > now || At(tomorrow, e) > now
    ensures AllAfter(tomorrow, now) ==> AllAfter(t, now)
  {
    SunTimes(
      Pick(now, today.sunrise, tomorrow.sunrise),
      Pick(now, today.sunriseEnd, tomorrow.sunriseEnd),
      Pick(now, today.sunsetStart, tomorrow.sunsetStart),
      Pick(now, today.sunset, tomorrow.sunset))
  }

  // ---------------------------------------------------------------------
  // Classification

  /** The branch the if/else chain takes; the names follow its log messages. */
  datatype Phase = Rising | Up | Setting | Set

  /** What one evaluation produces: the branch, lightRatio and nextUpdate. */
  datatype Reading = Reading(phase: Phase, ratio: Ratio, nextUpdate: int)

  predicate InRising(now: int, t: SunTimes) { t.sunrise < now < t.sunriseEnd }
  predicate InUp(now: int, t: SunTimes) { t.sunriseEnd < now < t.sunsetStart }
  predicate InSetting(now: int, t: SunTimes) { t.sunsetStart < now < t.sunset }

  /**
   * The if/else chain over an arbitrary quadruple. The guards are evaluated in
   * order with strict inequalities; whatever none of them catches is Set.
   * The rising and setting ratios divide by a difference that the guard
   * itself makes strictly positive.
   *
   * In JavaScript `now + UPDATE_FREQUENCY` on a Date concatenates strings,
   * which makes the timer delay NaN; the model takes the evident meaning, now
   * plus 1000 milliseconds. After selection these branches are reachable only
   * when some tomorrow event is at or before now (see AlwaysNight).
   */
  function Classify(now: int, t: SunTimes): (r: Reading)
    ensures r.phase == Rising <==> InRising(now, t)
    ensures r.phase == Up <==> !InRising(now, t) && InUp(now, t)
    ensures r.phase == Setting <==> !InRising(now, t) && !InUp(now, t) && InSetting(now, t)
    ensures InUnitInterval(r.ratio)
    ensures r.phase == Rising ==> r.ratio.num * (t.sunriseEnd - t.sunrise) == (now - t.sunrise) * r.ratio.den
    ensures r.phase == Setting ==> r.ratio.num * (t.sunset - t.sunsetStart) == (t.sunset - now) * r.ratio.den
    ensures r.phase in {Rising, Setting} ==> 0 < r.ratio.num < r.ratio.den
    ensures r.phase in {Rising, Setting} ==> r.nextUpdate == now + UPDATE_FREQUENCY
    ensures r.phase == Up ==> r.ratio.num == r.ratio.den && r.nextUpdate == t.sunsetStart > now
    ensures r.phase == Set ==> r.ratio.num == 0 && r.nextUpdate == t.sunrise
  {
    if t.sunrise < now < t.sunriseEnd then
      Reading(Rising, Ratio(now - t.sunrise, t.sunriseEnd - t.sunrise), now + UPDATE_FREQUENCY)
    else if t.sunriseEnd < now < t.sunsetStart then
      Reading(Up, Ratio(1, 1), t.sunsetStart)
    else if t.sunsetStart < now < t.sunset then
      Reading(Setting, Ratio(t.sunset - now, t.sunset - t.sunsetStart), now + UPDATE_FREQUENCY)
    else
      Reading(Set, Ratio(0, 1), t.sunrise)
  }

  /**
   * On a quadruple in natural order the three intervals are disjoint, so the
   * priority of the chain does not matter: each phase holds exactly when now
   * is inside its own open interval, and Set exactly when it is in none.
   */
  lemma {:induction false} OrderedPhases(now: int, t: SunTimes)
    requires Ordered(t)
    ensures Classify(now, t).phase == Rising <==> InRising(now, t)
    ensures Classify(now, t).phase == Up <==> InUp(now, t)
    ensures Classify(now, t).phase == Setting <==> InSetting(now, t)
    ensures Classify(now, t).phase == Set <==> !InRising(now, t) && !InUp(now, t) && !InSetting(now, t)
  {
  }

  /**
   * An instant equal to a boundary never lies in an interval that boundary
   * delimits, so it falls to a later branch of the chain.
   */
  lemma BoundaryExcluded(now: int, t: SunTimes)
    ensures now == t.sunrise ==> Classify(now, t).phase != Rising
    ensures now == t.sunriseEnd ==> Classify(now, t).phase !in {Rising, Up}
    ensures now == t.sunsetStart ==> Classify(now, t).phase !in {Up, Setting}
    ensures now == t.sunset ==> Classify(now, t).phase != Setting
  {
  }

  /** On a quadruple in natural order, an instant equal to any boundary is classified Set. */
  lemma {:induction false} BoundaryIsSet(now: int, t: SunTimes, e: Event)
    requires Ordered(t) && now == At(t, e)
    ensures Classify(now, t).phase == Set
  {
    OrderedPhases(now, t);
  }

  /** When no boundary that opens an interval has passed, the chain reaches Set. */
  lemma NothingPassedIsSet(now: int, t: SunTimes)
    requires now <= t.sunrise && now <= t.sunriseEnd && now <= t.sunsetStart
    ensures Classify(now, t).phase == Set
  {
  }

  /** The level the evaluation yields always lies in [1, 1000000000] units. */
  lemma ClassifiedUnitsRange(now: int, t: SunTimes)
    ensures MIN_UNITS <= Units(Classify(now, t).ratio) <= MAX_UNITS
  {
    UnitsRange(Classify(now, t).ratio);
  }

  // ---------------------------------------------------------------------
  // The engine: selection followed by classification

  /** Lines 45-84 of index.js together. */
  function Evaluate(now: int, today: SunTimes, tomorrow: SunTimes): (r: Reading)
  {
    Classify(now, SelectTimes(now, today, tomorrow))
  }

  /**
   * Whenever tomorrow's events are all still to come, every effective
   * boundary is after now, none of the three guards can hold, and the engine
   * reports night: ratio 0, level 0.0001 lux, next update at the effective
   * sunrise, which is strictly in the future.
   */
  lemma {:induction false} AlwaysNight(now: int, today: SunTimes, tomorrow: SunTimes)
    requires AllAfter(tomorrow, now)
    ensures Evaluate(now, today, tomorrow).phase == Set
    ensures Evaluate(now, today, tomorrow).ratio.num == 0
    ensures Units(Evaluate(now, today, tomorrow).ratio) == MIN_UNITS
    ensures Evaluate(now, today, tomorrow).nextUpdate == SelectTimes(now, today, tomorrow).sunrise > now
  {
    var t := SelectTimes(now, today, tomorrow);
    assert AllAfter(t, now);
    NothingPassedIsSet(now, t);
    UnitsAtEnds(Classify(now, t).ratio.den);
  }
}

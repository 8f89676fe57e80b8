/**
 * The DaylightAccessory object of index.js: construction with its location
 * check, and getAmbientLightLevel's last step, which either answers a
 * callback or publishes the level to the light-sensor service and arms a
 * timer that calls it again.
 *
 * The service's CurrentAmbientLightLevel characteristic is the field
 * `published`; each armed setTimeout is recorded in `timers` by its delay in
 * milliseconds. The clock and the ephemeris are parameters.
 */
module Accessory {
  import opened Wrappers
  import opened LightLevel
  import opened SunEngine

  /** A coordinate as found in the configuration: Number.isFinite holds only of Finite. */
  datatype ConfigNumber = Finite(value: real) | NotFinite

  /** config.location as written by the user. */
  datatype RawLocation = RawLocation(lat: ConfigNumber, lng: ConfigNumber)

  /** The accessory's configuration; a location that is absent or falsy is None. */
  datatype Config = Config(name: string, location: Option<RawLocation>)

  /** A location that passed validation. */
  datatype Location = Location(lat: real, lng: real)

  const INVALID_LOCATION: string := "Invalid or missing `location` configuration."

  /**
   * The constructor's check: it fails exactly when the location is missing or
   * either coordinate is not a finite number. The range of the coordinates is
   * not checked.
   */
  function ValidateConfig(c: Config): (r: Result<Location, string>)
    ensures r.Success? <==> c.location.Some? && c.location.value.lat.Finite? && c.location.value.lng.Finite?
    ensures r.Success? ==> r.value.lat == c.location.value.lat.value && r.value.lng == c.location.value.lng.value
    ensures r.Failure? ==> r.error == INVALID_LOCATION
  {
    match c.location
    case None => Failure(INVALID_LOCATION)
    case Some(loc) =>
      if loc.lat.Finite? && loc.lng.Finite? then Success(Location(loc.lat.value, loc.lng.value))
      else Failure(INVALID_LOCATION)
  }

  /** The light level getAmbientLightLevel computes, in lux. */
  function LightLevelAt(now: int, today: SunTimes, tomorrow: SunTimes): (lux: real)
  {
    Lux(Evaluate(now, today, tomorrow).ratio)
  }

  // ---------------------------------------------------------------------
  // The accessory's observable state and its transitions

  /**
   * What the accessory changes: the value on the CurrentAmbientLightLevel
   * characteristic, if any was set, and the delays in milliseconds of the
   * timers armed and not yet fired, in arming order.
   */
  datatype SensorState = SensorState(published: Option<real>, timers: seq<int>)

  /** One firing of pending timer k, with the clock and the sun events at that moment. */
  datatype Firing = Firing(k: nat, now: int, today: SunTimes, tomorrow: SunTimes)

  /** getAmbientLightLevel() without a callback: publish the level, arm one timer for nextUpdate - now. */
  function PublishAndArm(s: SensorState, now: int, today: SunTimes, tomorrow: SunTimes): (s': SensorState)
  {
    SensorState(Some(LightLevelAt(now, today, tomorrow)), s.timers + [Evaluate(now, today, tomorrow).nextUpdate - now])
  }

  /**
   * Timer f.k fires: it leaves the pending set and its call, bound without a
   * callback, publishes and arms its successor.
   */
  function Fire(s: SensorState, f: Firing): (r: SensorState)
    requires f.k < |s.timers|
    ensures |r.timers| == |s.timers|
    ensures r.published == Some(LightLevelAt(f.now, f.today, f.tomorrow))
    ensures r.timers[..f.k] == s.timers[..f.k] && r.timers[f.k..|s.timers| - 1] == s.timers[f.k + 1..]
    ensures r.timers[|s.timers| - 1] == Evaluate(f.now, f.today, f.tomorrow).nextUpdate - f.now
  {
    PublishAndArm(SensorState(s.published, s.timers[..f.k] + s.timers[f.k + 1..]), f.now, f.today, f.tomorrow)
  }

  /** Every firing names a timer among the first n. */
  predicate ValidFirings(fs: seq<Firing>, n: nat)
  {
    forall i :: 0 <= i < |fs| ==> fs[i].k < n
  }

  /** At every firing, all of tomorrow's sun events are still to come. */
  predicate NightFirings(fs: seq<Firing>)
  {
    forall i :: 0 <= i < |fs| ==> AllAfter(fs[i].tomorrow, fs[i].now)
  }

  /** Every pending delay is strictly positive. */
  predicate AllPositive(delays: seq<int>)
  {
    forall i :: 0 <= i < |delays| ==> delays[i] > 0
  }

  /**
   * The self-rescheduling loop: the firings fs, one after the other. Since
   * each firing re-arms exactly one timer, the number of pending timers never
   * changes.
   */
  function Run(s: SensorState, fs: seq<Firing>): (r: SensorState)
    requires ValidFirings(fs, |s.timers|)
    ensures |r.timers| == |s.timers|
    decreases |fs|
  {
    if fs == [] then s else Run(Fire(s, fs[0]), fs[1..])
  }

  class DaylightAccessory {
    const name: string
    /**
     * The validated coordinates. Only the ephemeris, which the model leaves
     * out, would read this field; its sun times are parameters instead.
     */
    const location: Location
    /** The value last set on the CurrentAmbientLightLevel characteristic, if any. */
    var published: Option<real>
    /** Delays, in milliseconds, of the timers armed and not yet fired, in arming order. */
    var timers: seq<int>

    /** The observable state of this accessory. */
    function State(): (s: SensorState)
      reads this
    {
      SensorState(published, timers)
    }

    /** The object the constructor builds once validation has passed. */
    constructor (name: string, location: Location)
      ensures this.name == name && this.location == location
      ensures State() == SensorState(None, [])
    {
      this.name := name;
      this.location := location;
      published := None;
      timers := [];
    }

    /** `new DaylightAccessory(log, config)`: throws when location validation fails. */
    static method Create(config: Config) returns (r: Result<DaylightAccessory, string>)
      ensures r.Failure? <==> ValidateConfig(config).Failure?
      ensures r.Failure? ==> r.error == INVALID_LOCATION
      ensures r.Success? ==> fresh(r.value) && r.value.name == config.name
      ensures r.Success? ==> r.value.location == ValidateConfig(config).value
      ensures r.Success? ==> r.value.State() == SensorState(None, [])
    {
      match ValidateConfig(config)
      case Failure(e) =>
        r := Failure(e);
      case Success(loc) =>
        var a := new DaylightAccessory(config.name, loc);
        r := Success(a);
    }

    /**
     * getAmbientLightLevel(callback). With a callback the level is handed to
     * it (its error argument is null) and nothing else changes. Without one
     * the level is published and exactly one timer is armed, for
     * nextUpdate - now.
     */
    method GetAmbientLightLevel(hasCallback: bool, now: int, today: SunTimes, tomorrow: SunTimes)
      returns (delivered: Option<real>)
      modifies this
      ensures hasCallback ==> delivered == Some(LightLevelAt(now, today, tomorrow)) && State() == old(State())
      ensures !hasCallback ==> delivered == None && State() == PublishAndArm(old(State()), now, today, tomorrow)
      ensures !hasCallback ==> published == Some(LightLevelAt(now, today, tomorrow))
      ensures !hasCallback ==> timers == old(timers) + [Evaluate(now, today, tomorrow).nextUpdate - now]
    {
      var reading := Classify(now, SelectTimes(now, today, tomorrow));
      var lightLevel := Lux(reading.ratio);
      if hasCallback {
        delivered := Some(lightLevel);
      } else {
        delivered := None;
        published := Some(lightLevel);
        timers := timers + [reading.nextUpdate - now];
      }
    }

    /** Pending timer k fires at instant now. */
    method FireTimer(k: nat, now: int, today: SunTimes, tomorrow: SunTimes)
      requires k < |timers|
      modifies this
      ensures State() == Fire(old(State()), Firing(k, now, today, tomorrow))
      ensures |timers| == old(|timers|)
    {
      timers := timers[..k] + timers[k + 1..];
      var _ := GetAmbientLightLevel(false, now, today, tomorrow);
    }
  }

  /**
   * The source's steady state: with tomorrow's events still to come, every
   * publication is 0.0001 lux and the timer is re-armed for the effective
   * sunrise, a strictly positive delay away.
   */
  lemma {:induction false} NightPublication(now: int, today: SunTimes, tomorrow: SunTimes)
    requires AllAfter(tomorrow, now)
    ensures LightLevelAt(now, today, tomorrow) == 0.0001
    ensures Evaluate(now, today, tomorrow).nextUpdate - now > 0
  {
    AlwaysNight(now, today, tomorrow);
  }

  /**
   * Over any run of the loop in which tomorrow's events are always still to
   * come, the characteristic ends at 0.0001 lux and every pending delay stays
   * strictly positive.
   */
  lemma {:induction false} NightForever(s: SensorState, fs: seq<Firing>)
    requires ValidFirings(fs, |s.timers|) && NightFirings(fs) && AllPositive(s.timers)
    ensures fs != [] ==> Run(s, fs).published == Some(0.0001)
    ensures AllPositive(Run(s, fs).timers)
    decreases |fs|
  {
    if fs != [] {
      var f := fs[0];
      var s1 := Fire(s, f);
      NightPublication(f.now, f.today, f.tomorrow);
      assert AllPositive(s1.timers) by {
        forall i | 0 <= i < |s1.timers| ensures s1.timers[i] > 0 {
          if i < f.k {
            assert s1.timers[i] == s1.timers[..f.k][i];
          } else if i < |s.timers| - 1 {
            assert s1.timers[i] == s1.timers[f.k..|s.timers| - 1][i - f.k];
          }
        }
      }
      assert ValidFirings(fs[1..], |s1.timers|) by {
        forall i | 0 <= i < |fs[1..]| ensures fs[1..][i].k < |s1.timers| {
          assert fs[1..][i] == fs[i + 1];
        }
      }
      assert NightFirings(fs[1..]) by {
        forall i | 0 <= i < |fs[1..]| ensures AllAfter(fs[1..][i].tomorrow, fs[1..][i].now) {
          assert fs[1..][i] == fs[i + 1];
        }
      }
      NightForever(s1, fs[1..]);
      if |fs| > 1 {
        assert Run(s, fs) == Run(s1, fs[1..]);
      } else {
        assert fs[1..] == [];
        assert Run(s, fs) == Run(s1, []) == s1;
      }
    }
  }
}

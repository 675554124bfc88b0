/** The tracking simulator: a fixed star catalog, target selection, the
    day-phase classification of the Sun's altitude, visibility flags and the
    simulated telescope with its bounded tracking error.

    The celestial transforms themselves (equatorial to horizontal coordinates,
    the Sun's and Moon's positions) are done by astropy in the original; here
    their results enter as `real` inputs (`Transform`, `SkyReading`). */
module AstroSimulator {
  import opened Common

  // ---------------------------------------------------------------- catalog

  /** One catalog entry: right ascension and declination in degrees, and the
      visual magnitude. */
  datatype Star = Star(ra: real, dec: real, magnitude: real)

  /** The simulator's catalog dict, star name to entry. */
  const Catalog: map<string, Star> := map[
    "Sirius" := Star(101.287, -16.716, -1.46),
    "Vega" := Star(279.234, 38.784, 0.03),
    "Polaris" := Star(37.946, 89.264, 1.97),
    "Betelgeuse" := Star(88.793, 7.407, 0.50),
    "Rigel" := Star(78.634, -8.202, 0.13),
    "Aldebaran" := Star(68.980, 16.509, 0.85),
    "Capella" := Star(79.172, 45.998, 0.08),
    "Arcturus" := Star(213.915, 19.182, -0.05),
    "Antares" := Star(247.352, -26.432, 1.09)
  ]

  /** `get_catalog_objects`: the dict's keys, in the order they were inserted. */
  function CatalogNames(): (names: seq<string>)
    ensures |names| == 9
  {
    ["Sirius", "Vega", "Polaris", "Betelgeuse", "Rigel", "Aldebaran", "Capella", "Arcturus", "Antares"]
  }

  /** `self.catalog[name]`, or None for a name that is not a key. */
  function Lookup(name: string): (r: Option<Star>)
    ensures r.Some? <==> name in Catalog
  {
    if name in Catalog then Some(Catalog[name]) else None
  }

  /** The listed names are the catalog's keys, each exactly once. */
  lemma CatalogNamesAreKeys()
    ensures forall name :: name in Catalog <==> name in CatalogNames()
    ensures forall i, j | 0 <= i < j < |CatalogNames()| :: CatalogNames()[i] != CatalogNames()[j]
  {
  }

  /** Exactly the listed names look something up. */
  lemma LookupFindsEntry(name: string)
    ensures Lookup(name).Some? <==> name in CatalogNames()
  {
    CatalogNamesAreKeys();
  }

  // -------------------------------------------------------------- day phase

  /** The five day phases, from brightest to darkest. */
  datatype DayPhase = Dia | Crepusculo | CrepusculoNautico | CrepusculoAstronomico | Noche

  /** The text the simulator reports for a phase. */
  function PhaseLabel(p: DayPhase): string {
    match p
    case Dia => "Día"
    case Crepusculo => "Crepúsculo"
    case CrepusculoNautico => "Crepúsculo náutico"
    case CrepusculoAstronomico => "Crepúsculo astronómico"
    case Noche => "Noche"
  }

  /** How bright a phase is: 4 for day down to 0 for night. */
  function Brightness(p: DayPhase): nat {
    match p
    case Dia => 4
    case Crepusculo => 3
    case CrepusculoNautico => 2
    case CrepusculoAstronomico => 1
    case Noche => 0
  }

  /** The band of solar altitudes (degrees) that defines each phase: above 6,
      (-6, 6], (-12, -6], (-18, -12], and -18 or below. */
  predicate InBand(p: DayPhase, sunAlt: real) {
    match p
    case Dia => sunAlt > 6.0
    case Crepusculo => -6.0 < sunAlt <= 6.0
    case CrepusculoNautico => -12.0 < sunAlt <= -6.0
    case CrepusculoAstronomico => -18.0 < sunAlt <= -12.0
    case Noche => sunAlt <= -18.0
  }

  /** The `if/elif` chain of `get_sun_moon_info`: the phase whose band holds
      the solar altitude, and no other phase's band holds it. */
  function DayPhaseOf(sunAlt: real): (p: DayPhase)
    ensures InBand(p, sunAlt)
    ensures forall q :: InBand(q, sunAlt) ==> q == p
  {
    if sunAlt > 6.0 then Dia
    else if sunAlt > -6.0 then Crepusculo
    else if sunAlt > -12.0 then CrepusculoNautico
    else if sunAlt > -18.0 then CrepusculoAstronomico
    else Noche
  }

  /** A lower Sun never gives a brighter phase. */
  lemma DayPhaseMonotone(lower: real, higher: real)
    requires lower <= higher
    ensures Brightness(DayPhaseOf(lower)) <= Brightness(DayPhaseOf(higher))
  {
  }

  /** The boundary altitudes belong to the darker side of each threshold
      except the band above: exactly 6, -6, -12 and -18 degrees. */
  lemma DayPhaseBoundaries()
    ensures DayPhaseOf(6.0) == Crepusculo && DayPhaseOf(-6.0) == CrepusculoNautico
    ensures DayPhaseOf(-12.0) == CrepusculoAstronomico && DayPhaseOf(-18.0) == Noche
  {
  }

  /** The observing verdict. */
  datatype Verdict = Good | Poor

  /** `observing_conditions`: Good exactly in the night phase. */
  function ObservingConditions(p: DayPhase): (v: Verdict)
    ensures v == Good <==> p == Noche
  {
    if p == Noche then Good else Poor
  }

  /** The verdict is Good exactly when the Sun is at or below -18 degrees. */
  lemma GoodIffSunBelowMinus18(sunAlt: real)
    ensures ObservingConditions(DayPhaseOf(sunAlt)) == Good <==> sunAlt <= -18.0
  {
  }

  // ------------------------------------------------------------- visibility

  /** Visibility of the target, the Sun and the Moon: strictly above the horizon. */
  predicate AboveHorizon(alt: real) {
    alt > 0.0
  }

  /** The target status shown for a visibility flag. */
  function VisibilityStatus(isVisible: bool): (s: string)
    ensures s == "Visible" <==> isVisible
  {
    if isVisible then "Visible" else "Bajo el horizonte"
  }

  // ------------------------------------------------------------ coordinates

  /** The outcome of astropy's transform of the target to the local frame. */
  datatype Transform = AltAzResult(alt: real, az: real) | TransformFailed(message: string)

  /** The dict `get_target_coordinates` returns: a position, or the error
      shape of its `except` branch. */
  datatype TargetCoords =
    | Coords(name: string, altitud: real, azimut: real, magnitude: real,
             isVisible: bool, status: string, timestamp: string)
    | CoordsError(name: string, error: string, status: string)

  /** What the `try` block of `get_target_coordinates` produces for a target
      name: the catalog lookup (a KeyError reads `'name'`), then the transform. */
  function TargetCoordsFor(name: string, t: Transform, timestamp: string): (r: TargetCoords)
    ensures r.name == name
    ensures r.Coords? <==> Lookup(name).Some? && t.AltAzResult?
    ensures r.Coords? ==> r.altitud == t.alt && r.azimut == t.az
                          && r.magnitude == Lookup(name).value.magnitude
                          && (r.isVisible <==> t.alt > 0.0)
                          && (r.status == "Visible" <==> t.alt > 0.0)
    ensures r.CoordsError? ==> r.status == "Error en cálculo"
  {
    match Lookup(name)
    case None => CoordsError(name, "'" + name + "'", "Error en cálculo")
    case Some(entry) =>
      match t
      case TransformFailed(msg) => CoordsError(name, msg, "Error en cálculo")
      case AltAzResult(alt, az) =>
        var visible := AboveHorizon(alt);
        Coords(name, alt, az, entry.magnitude, visible, VisibilityStatus(visible), timestamp)
  }

  // ------------------------------------------------------ telescope position

  /** Half-width of the simulated tracking error, in degrees. */
  const ErrorRange: real := 0.1

  /** The dict `simulate_telescope_position` returns. */
  datatype TelescopePosition = TelescopePosition(
    telescopeAlt: real, telescopeAz: real,
    trackingErrorAlt: real, trackingErrorAz: real, status: string)

  /** The simulated mount: all zeros and 'No tracking' for absent or failed
      coordinates, else the target displaced by the two random draws
      `errAlt`, `errAz` (each drawn uniformly from [-0.1, 0.1]). */
  function SimulateTelescopePosition(coords: Option<TargetCoords>, errAlt: real, errAz: real): (p: TelescopePosition)
    requires -ErrorRange <= errAlt <= ErrorRange && -ErrorRange <= errAz <= ErrorRange
    ensures p.status == "Tracking active" <==> coords.Some? && coords.value.Coords?
    ensures p.status == "Tracking active" ==>
              -ErrorRange <= p.telescopeAlt - coords.value.altitud <= ErrorRange
              && -ErrorRange <= p.telescopeAz - coords.value.azimut <= ErrorRange
              && p.telescopeAlt - p.trackingErrorAlt == coords.value.altitud
              && p.telescopeAz - p.trackingErrorAz == coords.value.azimut
    ensures p.status != "Tracking active" ==> p == TelescopePosition(0.0, 0.0, 0.0, 0.0, "No tracking")
  {
    if coords.None? || coords.value.CoordsError? then
      TelescopePosition(0.0, 0.0, 0.0, 0.0, "No tracking")
    else
      TelescopePosition(coords.value.altitud + errAlt, coords.value.azimut + errAz,
                        errAlt, errAz, "Tracking active")
  }

  // ---------------------------------------------------------- tracking rates

  /** The sidereal rate, degrees per hour. */
  const SiderealRate: real := 15.0

  /** The dict `calculate_tracking_rates` returns. */
  datatype TrackingRates = TrackingRates(raRate: real, decRate: real, units: string)

  // ---------------------------------------------------------------- Sun/Moon

  /** astropy's Sun and Moon altitudes/azimuths at the current instant, or the
      message of the exception it raised. */
  datatype SkyReading = Reading(sunAlt: real, sunAz: real, moonAlt: real, moonAz: real)
                      | ReadingFailed(message: string)

  datatype BodyInfo = BodyInfo(altitud: real, azimut: real, visible: bool)

  /** The dict `get_sun_moon_info` returns, or the shape of its `except` branch. */
  datatype SunMoonInfo =
    | SunMoon(sun: BodyInfo, moon: BodyInfo, dayPhase: DayPhase, observingConditions: Verdict)
    | SunMoonError(error: string, status: string)

  /** The `try` block of `get_sun_moon_info` for one reading. */
  function SunMoonFor(r: SkyReading): (info: SunMoonInfo)
    ensures info.SunMoon? <==> r.Reading?
    ensures info.SunMoon? ==>
              info.sun.altitud == r.sunAlt && info.moon.altitud == r.moonAlt
              && info.sun.azimut == r.sunAz && info.moon.azimut == r.moonAz
              && (info.sun.visible <==> r.sunAlt > 0.0)
              && (info.moon.visible <==> r.moonAlt > 0.0)
              && InBand(info.dayPhase, r.sunAlt)
              && (info.observingConditions == Good <==> r.sunAlt <= -18.0)
  {
    match r
    case ReadingFailed(msg) => SunMoonError(msg, "Error calculando Sol/Luna")
    case Reading(sunAlt, sunAz, moonAlt, moonAz) =>
      var phase := DayPhaseOf(sunAlt);
      SunMoon(BodyInfo(sunAlt, sunAz, AboveHorizon(sunAlt)),
              BodyInfo(moonAlt, moonAz, AboveHorizon(moonAlt)),
              phase, ObservingConditions(phase))
  }

  // -------------------------------------------------------------- simulator

  /** `AstroTrackingSimulator`: the observer's location, the current target
      and whether tracking is on. The catalog is the constant `Catalog`. */
  class AstroTrackingSimulator {
    var earthLocation: Option<EarthLocation>
    var targetObject: Option<string>
    var trackingActive: bool

    constructor (loc: Option<EarthLocation>)
      ensures earthLocation == loc && targetObject == None && !trackingActive
    {
      earthLocation := loc;
      targetObject := None;
      trackingActive := false;
    }

    /** Python truthiness of `self.target_object`. */
    predicate HasTarget()
      reads this
    {
      targetObject.Some? && targetObject.value != ""
    }

    /** `set_target`: accept a catalog name, make it the target and start
        tracking; refuse any other name and change nothing. */
    method SetTarget(name: string) returns (ok: bool)
      modifies this`targetObject, this`trackingActive
      ensures ok <==> name in CatalogNames()
      ensures ok ==> targetObject == Some(name) && trackingActive
      ensures !ok ==> targetObject == old(targetObject) && trackingActive == old(trackingActive)
    {
      LookupFindsEntry(name);
      if Lookup(name).Some? {
        targetObject := Some(name);
        trackingActive := true;
        return true;
      }
      return false;
    }

    /** `get_target_coordinates`: None without a target or a location,
        otherwise the position for the target (or the error shape). */
    method GetTargetCoordinates(t: Transform, timestamp: string) returns (r: Option<TargetCoords>)
      ensures r.None? <==> !HasTarget() || earthLocation.None?
      ensures r.Some? ==> r.value == TargetCoordsFor(targetObject.value, t, timestamp)
    {
      if !HasTarget() || earthLocation.None? {
        return None;
      }
      r := Some(TargetCoordsFor(targetObject.value, t, timestamp));
    }

    /** `calculate_tracking_rates`: None while tracking is off, else the
        sidereal rate in right ascension and none in declination. */
    method CalculateTrackingRates() returns (r: Option<TrackingRates>)
      ensures r.Some? <==> trackingActive
      ensures r.Some? ==> r.value == TrackingRates(SiderealRate, 0.0, "grados/hora")
    {
      if !trackingActive {
        return None;
      }
      r := Some(TrackingRates(SiderealRate, 0.0, "grados/hora"));
    }

    /** `get_sun_moon_info`: None without a location, else the phase and
        verdict for the reading. */
    method GetSunMoonInfo(reading: SkyReading) returns (r: Option<SunMoonInfo>)
      ensures r.None? <==> earthLocation.None?
      ensures r.Some? ==> r.value == SunMoonFor(reading)
    {
      if earthLocation.None? {
        return None;
      }
      r := Some(SunMoonFor(reading));
    }
  }
}

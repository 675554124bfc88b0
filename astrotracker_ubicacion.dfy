/** The location-aware tracker: it initialises its observer frame from a saved
    location or, failing that, from automatic lookup, computes Sun, Moon and
    star positions for it, and judges observing conditions with its own rules,
    which differ from the simulator's (see `NightRulesDisagree`). */
module AstroTrackerUbicacion {
  import opened Common
  import opened Ubicacion
  import AstroSimulator

  // ------------------------------------------------------------------ rules

  /** The default minimum elevation, degrees, for an object to count as visible. */
  const ElevacionMinima: real := 10.0

  /** `es_objeto_visible`: strictly above the minimum elevation. */
  predicate EsObjetoVisible(elevacion: real, elevacionMinima: real := ElevacionMinima) {
    elevacion > elevacionMinima
  }

  /** `es_noche`: the Sun strictly below -6 degrees. */
  predicate EsNoche(elevacionSol: real) {
    elevacionSol < -6.0
  }

  /** The two verdicts of `condiciones_observacion`. */
  datatype Condiciones = Buenas | Regular

  /** `condiciones_observacion`: good only at night with the Moon below 30 degrees. */
  function CondicionesObservacion(elevacionSol: real, elevacionLuna: real): (c: Condiciones)
    ensures c == Buenas <==> elevacionSol < -6.0 && elevacionLuna < 30.0
  {
    if EsNoche(elevacionSol) && elevacionLuna < 30.0 then Buenas else Regular
  }

  /** This visibility rule is stricter than the simulator's horizon flag: a
      visible object is above the horizon, but not conversely (5 degrees). */
  lemma VisibilityRulesCompared(elevacion: real)
    ensures EsObjetoVisible(elevacion) ==> AstroSimulator.AboveHorizon(elevacion)
    ensures AstroSimulator.AboveHorizon(5.0) && !EsObjetoVisible(5.0)
  {
  }

  /** The two night rules: the simulator's night (-18 or below) is always
      `es_noche`, but at -10 degrees only this rule says night. */
  lemma NightRulesDisagree(elevacionSol: real)
    ensures AstroSimulator.DayPhaseOf(elevacionSol) == AstroSimulator.Noche ==> EsNoche(elevacionSol)
    ensures EsNoche(-10.0) && AstroSimulator.DayPhaseOf(-10.0) != AstroSimulator.Noche
  {
  }

  /** The two verdicts are inconsistent both ways: 'Good' with a high Moon is
      'Regular', and 'Poor' in nautical twilight with a low Moon is 'Buenas';
      they agree when the Sun is at or below -18 and the Moon below 30. */
  lemma ConditionRulesDisagree(elevacionSol: real, elevacionLuna: real)
    ensures AstroSimulator.ObservingConditions(AstroSimulator.DayPhaseOf(-20.0)) == AstroSimulator.Good
            && CondicionesObservacion(-20.0, 40.0) == Regular
    ensures AstroSimulator.ObservingConditions(AstroSimulator.DayPhaseOf(-10.0)) == AstroSimulator.Poor
            && CondicionesObservacion(-10.0, 0.0) == Buenas
    ensures (AstroSimulator.ObservingConditions(AstroSimulator.DayPhaseOf(elevacionSol)) == AstroSimulator.Good
             && elevacionLuna < 30.0) ==> CondicionesObservacion(elevacionSol, elevacionLuna) == Buenas
  {
  }

  // -------------------------------------------------------------- positions

  /** The dict of `calcular_posicion_sol` / `calcular_posicion_luna`. */
  datatype BodyPosition = BodyPosition(elevacion: real, azimuth: real, tiempo: string)

  /** The dict of `calcular_posicion_estrella`. */
  datatype StarPosition = StarPosition(elevacion: real, azimuth: real, ra: real, dec: real, tiempo: string)

  /** The dict of `obtener_info_observacion`. */
  datatype InfoObservacion = InfoObservacion(
    tiempo: string, ubicacion: Option<Record>, sol: BodyPosition, luna: BodyPosition,
    esNoche: bool, condiciones: Condiciones)

  /** The JSON file `inicializar_ubicacion` loads and saves. */
  const ArchivoUbicacion: string := DefaultFile

  /** What `inicializar_ubicacion` reports: whether a location was obtained,
      and whether it was found saved (else looked up). */
  predicate Initialised(s: ManagerState, files: map<string, StoredFile>, auto: GeoReply,
                        alts: seq<GeoReply>, now: string)
    requires |alts| == |AltProviders|
  {
    Present(Load(s, files, ArchivoUbicacion).result)
    || Present(Located(Load(s, files, ArchivoUbicacion).state, true, auto, alts, now).result)
  }

  /** How `inicializar_ubicacion` ends: True, False, or the exception
      `imprimir_ubicacion` raises after the frame was taken. */
  datatype InitResult = Ready | NoLocation | PrintRaised

  datatype InitStep = InitStep(state: ManagerState, files: map<string, StoredFile>, result: InitResult)

  /** `inicializar_ubicacion` on values: the saved location if there is one,
      else a lookup that is saved when it succeeds; then the record is printed. */
  function Inicializar(s: ManagerState, files: map<string, StoredFile>, auto: GeoReply,
                       alts: seq<GeoReply>, now: string, writable: bool): (t: InitStep)
    requires |alts| == |AltProviders|
    ensures t.result == NoLocation <==> !Initialised(s, files, auto, alts, now)
    ensures t.result != NoLocation ==>
              Present(t.state.actual) && (t.result == Ready <==> Imprimible(t.state.actual.value))
    ensures var loaded := Load(s, files, ArchivoUbicacion);
            Present(loaded.result) ==> t.state == loaded.state && t.files == files
    ensures var loaded := Load(s, files, ArchivoUbicacion);
            !Present(loaded.result) ==> t.state == Located(loaded.state, true, auto, alts, now).state
    ensures t.result == NoLocation ==> t.files == files
    ensures t.files == files || t.files == Save(t.state, files, ArchivoUbicacion, writable).files
  {
    var loaded := Load(s, files, ArchivoUbicacion);
    if Present(loaded.result) then
      InitStep(loaded.state, files, Printed(loaded.state))
    else
      var located := Located(loaded.state, true, auto, alts, now);
      if Present(located.result) then
        InitStep(located.state, Save(located.state, files, ArchivoUbicacion, writable).files,
                 Printed(located.state))
      else InitStep(located.state, files, NoLocation)
  }

  /** The end of a successful initialisation: printing raises or not. */
  function Printed(s: ManagerState): InitResult {
    if Present(s.actual) && !Imprimible(s.actual.value) then PrintRaised else Ready
  }

  /** A location looked up at start-up and saved is the one the next start-up
      loads, without a second lookup. */
  lemma {:induction false} LookedUpLocationIsReloaded(s: ManagerState, files: map<string, StoredFile>,
                                                      auto: GeoReply, alts: seq<GeoReply>, now: string,
                                                      auto2: GeoReply, alts2: seq<GeoReply>, now2: string)
    requires |alts| == |AltProviders| && |alts2| == |AltProviders|
    requires !Present(Load(s, files, ArchivoUbicacion).result)
    requires Inicializar(s, files, auto, alts, now, true).result != NoLocation
    ensures var first := Inicializar(s, files, auto, alts, now, true);
            var second := Inicializar(Fresh, first.files, auto2, alts2, now2, true);
            second.state == Adopt(Fresh, first.state.actual.value) && second.files == first.files
            && second.result == first.result
  {
    var first := Inicializar(s, files, auto, alts, now, true);
    var rec := first.state.actual.value;
    assert first.files == files[ArchivoUbicacion := Json(rec)];
    assert Load(Fresh, first.files, ArchivoUbicacion).result == Some(rec);
  }

  /** `AstroTrackerConUbicacion`: a location manager and the frame taken from it.
      Sun, Moon and star positions (astropy) enter as `alt`/`az` parameters and
      `tiempo` is the ISO time of the instant. */
  class AstroTrackerConUbicacion {
    var ubicacionManager: UbicacionManager
    var earthLocation: Option<EarthLocation>

    /** `__init__`: a fresh manager, no frame, then `inicializar_ubicacion`. */
    constructor (disk: Disk, auto: GeoReply, alts: seq<GeoReply>, now: string, writable: bool)
      requires |alts| == |AltProviders|
      modifies disk
      ensures fresh(ubicacionManager)
      ensures var t := Inicializar(Fresh, old(disk.files), auto, alts, now, writable);
              && ubicacionManager.State() == t.state && disk.files == t.files
              && earthLocation == (if t.result == NoLocation then None else t.state.earth)
    {
      ubicacionManager := new UbicacionManager();
      earthLocation := None;
      new;
      var _ := InicializarUbicacion(disk, auto, alts, now, writable);
    }

    /** `inicializar_ubicacion`: load the saved location; only if that gives
        nothing, look it up and save it after a successful lookup; NoLocation
        when both fail. Otherwise the frame is the manager's, and printing the
        record may still raise. */
    method InicializarUbicacion(disk: Disk, auto: GeoReply, alts: seq<GeoReply>, now: string,
                                writable: bool) returns (r: InitResult)
      requires |alts| == |AltProviders|
      modifies this, ubicacionManager, disk
      ensures ubicacionManager == old(ubicacionManager)
      ensures InitStep(ubicacionManager.State(), disk.files, r)
              == Inicializar(old(ubicacionManager.State()), old(disk.files), auto, alts, now, writable)
      ensures r != NoLocation ==> earthLocation == ubicacionManager.earthLocation
      ensures r == NoLocation ==> earthLocation == old(earthLocation)
    {
      var guardada := ubicacionManager.CargarUbicacion(disk, ArchivoUbicacion);
      if !Present(guardada) {
        var ubicacion := ubicacionManager.ObtenerUbicacion(auto, alts, now);
        if Present(ubicacion) {
          var _ := ubicacionManager.GuardarUbicacion(disk, writable, ArchivoUbicacion);
        } else {
          return NoLocation;
        }
      }
      earthLocation := ubicacionManager.GetEarthLocation();
      var raised := ubicacionManager.ImprimirUbicacion();
      r := if raised then PrintRaised else Ready;
    }

    /** `calcular_posicion_sol` (and, with the Moon's values, `calcular_posicion_luna`):
        None without a frame, else the body's elevation and azimuth. */
    method CalcularPosicion(alt: real, az: real, tiempo: string) returns (r: Option<BodyPosition>)
      ensures r.None? <==> earthLocation.None?
      ensures r.Some? ==> r.value == BodyPosition(alt, az, tiempo)
    {
      if earthLocation.None? {
        return None;
      }
      return Some(BodyPosition(alt, az, tiempo));
    }

    /** `calcular_posicion_estrella`: None without a frame, else the position,
        echoing the star's `ra` and `dec` unchanged. */
    method CalcularPosicionEstrella(ra: real, dec: real, alt: real, az: real, tiempo: string)
      returns (r: Option<StarPosition>)
      ensures r.None? <==> earthLocation.None?
      ensures r.Some? ==> r.value.ra == ra && r.value.dec == dec
                          && r.value.elevacion == alt && r.value.azimuth == az
    {
      if earthLocation.None? {
        return None;
      }
      return Some(StarPosition(alt, az, ra, dec, tiempo));
    }

    /** `obtener_info_observacion`: None without a frame, else both bodies,
        the night flag and this module's conditions verdict. */
    method ObtenerInfoObservacion(solAlt: real, solAz: real, lunaAlt: real, lunaAz: real,
                                  tiempo: string) returns (r: Option<InfoObservacion>)
      ensures r.None? <==> earthLocation.None?
      ensures r.Some? ==> r.value.esNoche == (solAlt < -6.0)
                          && (r.value.condiciones == Buenas <==> solAlt < -6.0 && lunaAlt < 30.0)
                          && r.value.sol.elevacion == solAlt && r.value.luna.elevacion == lunaAlt
                          && r.value.ubicacion == ubicacionManager.ubicacionActual
    {
      if earthLocation.None? {
        return None;
      }
      var sol := CalcularPosicion(solAlt, solAz, tiempo);
      var luna := CalcularPosicion(lunaAlt, lunaAz, tiempo);
      var esNoche := EsNoche(sol.value.elevacion);
      r := Some(InfoObservacion(tiempo, ubicacionManager.ubicacionActual, sol.value, luna.value,
                                esNoche, CondicionesObservacion(sol.value.elevacion, luna.value.elevacion)));
    }
  }
}

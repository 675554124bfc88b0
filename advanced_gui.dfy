/** The advanced tracking window: a target selector driven by the arrow keys,
    RETURN and SPACE, a once-a-second update that refreshes Sun/Moon data, the
    target's position and the simulated telescope, a polar sky map, and
    status texts whose colour follows their wording.

    Each key press and each tick of the update thread is one call; the
    values astropy and the random draws would give are parameters, as in the
    simulator. */
module AdvancedGui {
  import opened Common
  import opened AstroSimulator
  import Ubicacion

  // ---------------------------------------------------------- the selector

  /** Rows the selector shows at once. */
  const VisibleTargets: nat := 8

  function Min(a: int, b: int): int {
    if a <= b then a else b
  }

  function Max(a: int, b: int): int {
    if a >= b then a else b
  }

  /** The first row the selector draws: the selection is kept four rows from
      the top while the list allows it. The start is never negative, the
      selection is always inside the window, and a window that has scrolled
      is full. */
  function WindowStart(sel: int, len: int): (start: int)
    ensures start >= 0
    ensures 0 <= sel < len ==> start <= sel < start + VisibleTargets
    ensures start > 0 ==> start + VisibleTargets <= len
    ensures len >= 0 ==> start <= len
  {
    Max(0, Min(sel - VisibleTargets / 2, len - VisibleTargets))
  }

  /** The prefix of a row: the current target ("► "), else the highlighted
      selection ("• "), else plain. */
  datatype Marker = Current | Selected | Plain

  function Prefix(m: Marker): string {
    match m
    case Current => "► "
    case Selected => "• "
    case Plain => "  "
  }

  /** One drawn row: list index, name, prefix and whether it is highlighted. */
  datatype Row = Row(index: nat, name: string, marker: Marker, highlighted: bool)

  // ------------------------------------------------------------- sky map

  /** Distance from the map centre of a point at altitude `alt`: 90 degrees
      is the centre, 0 degrees the rim. */
  function MapRadius(radius: real, alt: real): real {
    radius * (1.0 - alt / 90.0)
  }

  /** The altitude a distance from the centre stands for. */
  function AltitudeAt(radius: real, r: real): real
    requires radius != 0.0
  {
    90.0 * (1.0 - r / radius)
  }

  /** The map and its reading agree: the altitude of a plotted point is the
      point's altitude, and the plotted distance of an altitude is that
      distance. */
  lemma MapRadiusRoundTrip(radius: real, alt: real, r: real)
    requires radius != 0.0
    ensures AltitudeAt(radius, MapRadius(radius, alt)) == alt
    ensures MapRadius(radius, AltitudeAt(radius, r)) == r
  {
    var x := 1.0 - alt / 90.0;
    assert radius * x / radius == x;
    var y := r / radius;
    assert radius * y == r;
  }

  /** Higher means closer to the centre; any altitude above the horizon and
      at most the zenith lies inside the disc. */
  lemma MapRadiusOrder(radius: real, lower: real, higher: real)
    requires radius > 0.0 && lower < higher
    ensures MapRadius(radius, higher) < MapRadius(radius, lower)
    ensures 0.0 < lower <= 90.0 ==> 0.0 <= MapRadius(radius, lower) < radius
    ensures MapRadius(radius, 90.0) == 0.0 && MapRadius(radius, 0.0) == radius
  {
    assert radius * (higher / 90.0) > radius * (lower / 90.0);
  }

  /** `draw_sky_map` draws the target only when its coordinates say it is visible. */
  predicate TargetDrawn(c: Option<TargetCoords>) {
    c.Some? && c.value.Coords? && c.value.isVisible
  }

  /** `draw_sky_map` draws the telescope only above the horizon. */
  predicate TelescopeDrawn(p: Option<TelescopePosition>) {
    p.Some? && p.value.telescopeAlt > 0.0
  }

  /** The two markers of the sky map, as distances from its centre. */
  datatype Markers = Markers(target: Option<real>, telescope: Option<real>)

  function SkyMarkers(radius: real, coords: Option<TargetCoords>, tel: Option<TelescopePosition>): (m: Markers)
    ensures m.target.Some? <==> TargetDrawn(coords)
    ensures m.telescope.Some? <==> TelescopeDrawn(tel)
    ensures m.target.Some? ==> m.target.value == MapRadius(radius, coords.value.altitud)
    ensures m.telescope.Some? ==> m.telescope.value == MapRadius(radius, tel.value.telescopeAlt)
  {
    Markers(if TargetDrawn(coords) then Some(MapRadius(radius, coords.value.altitud)) else None,
            if TelescopeDrawn(tel) then Some(MapRadius(radius, tel.value.telescopeAlt)) else None)
  }

  /** For computed coordinates the target is drawn exactly when the name is
      in the catalog and the transform put it above the horizon; the
      telescope is drawn only while it is tracking. */
  lemma MarkersOfComputedCoords(radius: real, name: string, t: Transform, ts: string, errAlt: real, errAz: real)
    requires radius > 0.0
    requires -ErrorRange <= errAlt <= ErrorRange && -ErrorRange <= errAz <= ErrorRange
    ensures var coords := Some(TargetCoordsFor(name, t, ts));
            var m := SkyMarkers(radius, coords, Some(SimulateTelescopePosition(coords, errAlt, errAz)));
            && (m.target.Some? <==> Lookup(name).Some? && t.AltAzResult? && t.alt > 0.0)
            && (m.target.Some? && t.alt <= 90.0 ==> 0.0 <= m.target.value < radius)
            && (m.telescope.Some? <==> Lookup(name).Some? && t.AltAzResult? && t.alt + errAlt > 0.0)
  {
    if t.AltAzResult? && t.alt > 0.0 {
      MapRadiusOrder(radius, t.alt, t.alt + 1.0);
    }
  }

  // ------------------------------------------------------------- colours

  /** The `COLORS` entries the status texts use. */
  datatype Colour = Success | Warning | Failure | Secondary

  /** `draw_system_status`: "Error" anywhere wins over "listo"; "listo"
      alone is success; anything else a warning. */
  function StatusColour(status: string): (c: Colour)
    ensures c == Failure <==> Contains(status, "Error")
    ensures c == Success <==> !Contains(status, "Error") && Contains(status, "listo")
    ensures c == Warning <==> !Contains(status, "Error") && !Contains(status, "listo")
  {
    var c := if Contains(status, "listo") then Success else Warning;
    if Contains(status, "Error") then Failure else c
  }

  /** `draw_telescope_status`: "Siguiendo" is success, "no visible" a
      warning, anything else the secondary colour. */
  function TrackingColour(value: string): (c: Colour)
    ensures c == Success <==> Contains(value, "Siguiendo")
    ensures c == Warning <==> !Contains(value, "Siguiendo") && Contains(value, "no visible")
    ensures c != Failure
  {
    if Contains(value, "Siguiendo") then Success
    else if Contains(value, "no visible") then Warning
    else Secondary
  }

  /** A string missing one of `sub`'s characters does not contain `sub`. */
  lemma MissingCharNotContained(s: string, sub: string, j: nat)
    requires j < |sub| && sub[j] !in s
    ensures !Contains(s, sub)
  {
    if Contains(s, sub) {
      ContainsHasChar(s, sub, j);
    }
  }

  /** The ready message shows as success. */
  lemma ReadyMessageColour()
    ensures StatusColour("Sistema astronómico listo") == Success
  {
    var m := "Sistema astronómico listo";
    assert m == "Sistema astronómico " + "listo";
    EndsWithContains("Sistema astronómico ", "listo");
    assert 'E' !in m;
    MissingCharNotContained(m, "Error", 0);
  }

  /** A message that starts with "Error" shows as a failure, even when it
      also says "listo". */
  lemma ErrorMessageColour(rest: string)
    ensures StatusColour("Error" + rest) == Failure
  {
    StartsWithContains("Error", rest);
  }

  /** The location-detection message shows as a warning. */
  lemma DetectingMessageColour()
    ensures StatusColour("Detectando ubicación...") == Warning
  {
    var m := "Detectando ubicación...";
    assert 'E' !in m && 'l' !in m;
    MissingCharNotContained(m, "Error", 0);
    MissingCharNotContained(m, "listo", 0);
  }

  /** The manual-location message shows as a warning. */
  lemma ManualMessageColour()
    ensures StatusColour("Ubicación manual establecida") == Warning
  {
    var m := "Ubicación manual establecida";
    assert 'E' !in m && 'o' !in m;
    MissingCharNotContained(m, "Error", 0);
    MissingCharNotContained(m, "listo", 4);
  }

  // ------------------------------------------------------------ the state

  /** The window state that key presses and ticks change. */
  datatype UiState = UiState(
    availableTargets: seq<string>, selectedTargetIndex: int, currentTarget: Option<string>,
    targetCoords: Option<TargetCoords>, telescopePos: Option<TelescopePosition>,
    trackingStatus: string, systemStatus: string, sunMoonInfo: Option<SunMoonInfo>)

  /** The list is empty (index 0) or the catalog (index inside it), and a
      current target is a catalog name. */
  predicate ValidUi(u: UiState) {
    && ((u.availableTargets == [] && u.selectedTargetIndex == 0)
        || (u.availableTargets == CatalogNames()
            && 0 <= u.selectedTargetIndex < |u.availableTargets|))
    && (u.currentTarget.Some? ==> u.currentTarget.value in CatalogNames())
  }

  /** Python truthiness of `self.current_target`. */
  predicate HasCurrent(u: UiState) {
    u.currentTarget.Some? && u.currentTarget.value != ""
  }

  /** UP: one row back, wrapping from the first to the last; nothing on an
      empty list. */
  function NavigateUp(u: UiState): (v: UiState)
    ensures v == u.(selectedTargetIndex := v.selectedTargetIndex)
    ensures ValidUi(u) ==> ValidUi(v)
  {
    if u.availableTargets == [] then u
    else u.(selectedTargetIndex := (u.selectedTargetIndex - 1) % |u.availableTargets|)
  }

  /** DOWN: one row on, wrapping from the last to the first; nothing on an
      empty list. */
  function NavigateDown(u: UiState): (v: UiState)
    ensures v == u.(selectedTargetIndex := v.selectedTargetIndex)
    ensures ValidUi(u) ==> ValidUi(v)
  {
    if u.availableTargets == [] then u
    else u.(selectedTargetIndex := (u.selectedTargetIndex + 1) % |u.availableTargets|)
  }

  /** UP and DOWN move by one and wrap around the ends of the list. */
  lemma NavigationWraps(u: UiState)
    requires ValidUi(u) && u.availableTargets != []
    ensures NavigateUp(u).selectedTargetIndex
            == if u.selectedTargetIndex == 0 then |u.availableTargets| - 1 else u.selectedTargetIndex - 1
    ensures NavigateDown(u).selectedTargetIndex
            == if u.selectedTargetIndex == |u.availableTargets| - 1 then 0 else u.selectedTargetIndex + 1
  {
  }

  /** UP undoes DOWN and DOWN undoes UP. */
  lemma NavigationInverse(u: UiState)
    requires ValidUi(u)
    ensures NavigateUp(NavigateDown(u)) == u
    ensures NavigateDown(NavigateUp(u)) == u
  {
    if u.availableTargets != [] {
      NavigationWraps(u);
      NavigationWraps(NavigateDown(u));
      NavigationWraps(NavigateUp(u));
    }
  }

  /** RETURN: with targets and a simulator, the highlighted name becomes the
      current target if the simulator accepts it, with the status "Iniciando
      seguimiento de" it; otherwise nothing changes. */
  function Select(u: UiState, hasSimulator: bool): (v: UiState)
    requires ValidUi(u)
    ensures ValidUi(v)
    ensures !hasSimulator || u.availableTargets == [] ==> v == u
    ensures hasSimulator && u.availableTargets != [] ==>
              var name := u.availableTargets[u.selectedTargetIndex];
              v == u.(currentTarget := Some(name), trackingStatus := "Iniciando seguimiento de " + name)
  {
    if u.availableTargets != [] && hasSimulator then
      var name := u.availableTargets[u.selectedTargetIndex];
      if name in CatalogNames() then
        u.(currentTarget := Some(name), trackingStatus := "Iniciando seguimiento de " + name)
      else u
    else u
  }

  /** SPACE: with a simulator, no current target, no coordinates, no
      telescope position, and "Seguimiento detenido". */
  function Stop(u: UiState, hasSimulator: bool): (v: UiState)
    ensures ValidUi(u) ==> ValidUi(v)
    ensures !hasSimulator ==> v == u
    ensures hasSimulator ==> v.currentTarget.None? && v.targetCoords.None? && v.telescopePos.None?
                             && v.trackingStatus == "Seguimiento detenido"
                             && v.availableTargets == u.availableTargets
                             && v.selectedTargetIndex == u.selectedTargetIndex
  {
    if hasSimulator then
      u.(currentTarget := None, targetCoords := None, telescopePos := None,
         trackingStatus := "Seguimiento detenido")
    else u
  }

  /** `get_target_coordinates` of a simulator with target `target` and frame `loc`. */
  function CoordsOf(target: Option<string>, loc: Option<EarthLocation>, t: Transform, ts: string)
    : Option<TargetCoords>
  {
    if target.None? || target.value == "" || loc.None? then None
    else Some(TargetCoordsFor(target.value, t, ts))
  }

  /** The tracking status after a tick: following the target when its
      coordinates say it is visible, else not visible. */
  function TrackingStatusFor(name: string, coords: Option<TargetCoords>): (s: string)
    ensures s == "Siguiendo " + name <==> TargetDrawn(coords)
    ensures s == name + " no visible" <==> !TargetDrawn(coords)
  {
    if TargetDrawn(coords) then "Siguiendo " + name else name + " no visible"
  }

  /** One tick of `update_astronomical_data`, the simulator having target
      `simTarget` and frame `simLoc`: nothing without a simulator; else fresh
      Sun/Moon data and, with a current target, its coordinates, the
      telescope and the tracking status. */
  function Tick(u: UiState, hasSimulator: bool, simTarget: Option<string>, simLoc: Option<EarthLocation>,
                reading: SkyReading, t: Transform, ts: string, errAlt: real, errAz: real): (v: UiState)
    requires -ErrorRange <= errAlt <= ErrorRange && -ErrorRange <= errAz <= ErrorRange
    ensures ValidUi(u) ==> ValidUi(v)
    ensures !hasSimulator ==> v == u
    ensures hasSimulator && !HasCurrent(u) ==>
              v.targetCoords == u.targetCoords && v.telescopePos == u.telescopePos
              && v.trackingStatus == u.trackingStatus
    ensures hasSimulator && HasCurrent(u) ==>
              v.targetCoords == CoordsOf(simTarget, simLoc, t, ts)
              && (v.trackingStatus == "Siguiendo " + u.currentTarget.value <==> TargetDrawn(v.targetCoords))
              && v.telescopePos.Some?
              && (v.telescopePos.value.status == "Tracking active" <==> v.targetCoords.Some? && v.targetCoords.value.Coords?)
    ensures hasSimulator && HasCurrent(u) ==>
              v.telescopePos == Some(SimulateTelescopePosition(v.targetCoords, errAlt, errAz))
              && v.trackingStatus == TrackingStatusFor(u.currentTarget.value, v.targetCoords)
    ensures hasSimulator ==> v.sunMoonInfo == (if simLoc.None? then None else Some(SunMoonFor(reading)))
    ensures v.currentTarget == u.currentTarget && v.availableTargets == u.availableTargets
    ensures v.selectedTargetIndex == u.selectedTargetIndex && v.systemStatus == u.systemStatus
  {
    if !hasSimulator then u
    else
      var u1 := u.(sunMoonInfo := if simLoc.None? then None else Some(SunMoonFor(reading)));
      if HasCurrent(u) then
        var coords := CoordsOf(simTarget, simLoc, t, ts);
        u1.(targetCoords := coords,
            telescopePos := Some(SimulateTelescopePosition(coords, errAlt, errAz)),
            trackingStatus := TrackingStatusFor(u.currentTarget.value, coords))
      else u1
  }

  /** After RETURN selects a target, the next tick follows it exactly when the
      transform puts it above the horizon, and the status is shown as success
      exactly then (as a warning otherwise). */
  lemma SelectThenTick(u: UiState, loc: EarthLocation, reading: SkyReading, alt: real, az: real,
                       ts: string, errAlt: real, errAz: real)
    requires ValidUi(u) && u.availableTargets != []
    requires -ErrorRange <= errAlt <= ErrorRange && -ErrorRange <= errAz <= ErrorRange
    ensures var name := u.availableTargets[u.selectedTargetIndex];
            var w := Tick(Select(u, true), true, Some(name), Some(loc), reading, AltAzResult(alt, az),
                          ts, errAlt, errAz);
            && w.currentTarget == Some(name)
            && (w.trackingStatus == "Siguiendo " + name <==> alt > 0.0)
            && (TrackingColour(w.trackingStatus) == Success <==> alt > 0.0)
            && (TrackingColour(w.trackingStatus) == Warning <==> alt <= 0.0)
            && (TelescopeDrawn(w.telescopePos) <==> alt + errAlt > 0.0)
  {
    var name := u.availableTargets[u.selectedTargetIndex];
    assert name in CatalogNames();
    LookupFindsEntry(name);
    TrackingStatusColours(name);
  }

  /** A simulator set up again (by the detection RELOAD starts, or by a manual
      location) starts with no
      target while the window keeps its current one: every later tick then
      reports the target as not visible, in the warning colour, whatever its
      altitude, until RETURN selects it again. */
  lemma StaleTargetAfterNewSimulator(u: UiState, loc: EarthLocation, reading: SkyReading, alt: real,
                                     az: real, ts: string, errAlt: real, errAz: real)
    requires HasCurrent(u) && u.currentTarget.value in CatalogNames()
    requires -ErrorRange <= errAlt <= ErrorRange && -ErrorRange <= errAz <= ErrorRange
    ensures var w := Tick(u, true, None, Some(loc), reading, AltAzResult(alt, az), ts, errAlt, errAz);
            && w.targetCoords.None?
            && w.trackingStatus == u.currentTarget.value + " no visible"
            && TrackingColour(w.trackingStatus) == Warning
  {
    TrackingStatusColours(u.currentTarget.value);
  }

  /** For a catalog name the two statuses of a tick show as success and
      warning: no catalog name spells "Siguiendo". */
  lemma TrackingStatusColours(name: string)
    requires name in CatalogNames()
    ensures TrackingColour("Siguiendo " + name) == Success
    ensures TrackingColour(name + " no visible") == Warning
  {
    assert "Siguiendo " + name == "Siguiendo" + (" " + name);
    StartsWithContains("Siguiendo", " " + name);
    NotVisibleColour(name);
  }

  /** A catalog name followed by " no visible" has no "Siguiendo" in it. */
  lemma NotVisibleColour(name: string)
    requires name in CatalogNames()
    ensures TrackingColour(name + " no visible") == Warning
  {
    var m := name + " no visible";
    assert m == (name + " ") + "no visible";
    EndsWithContains(name + " ", "no visible");
    if name == "Sirius" {
      SiriusHasNoG();
      MissingCharNotContained(m, "Siguiendo", 2);
    } else {
      OtherNamesHaveNoS(name);
      assert 'S' !in " no visible";
      assert 'S' !in m;
      MissingCharNotContained(m, "Siguiendo", 0);
    }
  }

  lemma SiriusHasNoG()
    ensures 'g' !in "Sirius" + " no visible"
  {
    assert "Sirius" + " no visible" == "Sirius no visible";
  }

  lemma OtherNamesHaveNoS(name: string)
    requires name in CatalogNames() && name != "Sirius"
    ensures 'S' !in name
  {
  }

  // ------------------------------------------------------------ the window

  /** The file the window saves and loads its location with. */
  const GuiFile: string := "astrotracker_ubicacion.json"

  /** `AdvancedAstrotrackerGUI`: the location manager, the simulator once a
      frame exists, and the window state. */
  class AdvancedAstrotrackerGui {
    var ubicacionMgr: Ubicacion.UbicacionManager
    var simulator: AstroTrackingSimulator?
    var ubicacionData: Option<Ubicacion.Record>
    var earthLocation: Option<EarthLocation>
    var running: bool
    var availableTargets: seq<string>
    var selectedTargetIndex: int
    var currentTarget: Option<string>
    var targetCoords: Option<TargetCoords>
    var telescopePos: Option<TelescopePosition>
    var trackingStatus: string
    var systemStatus: string
    var sunMoonInfo: Option<SunMoonInfo>

    function Ui(): UiState
      reads this
    {
      UiState(availableTargets, selectedTargetIndex, currentTarget, targetCoords, telescopePos,
              trackingStatus, systemStatus, sunMoonInfo)
    }

    /** The targets are listed exactly once a simulator exists. */
    predicate Valid()
      reads this
    {
      ValidUi(Ui()) && (simulator == null <==> availableTargets == [])
    }

    method SetUi(u: UiState)
      modifies this
      ensures Ui() == u
      ensures simulator == old(simulator) && ubicacionMgr == old(ubicacionMgr)
      ensures ubicacionData == old(ubicacionData) && earthLocation == old(earthLocation)
      ensures running == old(running)
    {
      availableTargets, selectedTargetIndex, currentTarget := u.availableTargets, u.selectedTargetIndex, u.currentTarget;
      targetCoords, telescopePos, trackingStatus := u.targetCoords, u.telescopePos, u.trackingStatus;
      systemStatus, sunMoonInfo := u.systemStatus, u.sunMoonInfo;
    }

    /** `__init__` followed by `initialize_system`. */
    constructor (disk: Ubicacion.Disk)
      ensures Valid() && fresh(ubicacionMgr) && running
      ensures var t := Ubicacion.Load(Ubicacion.Fresh, disk.files, GuiFile);
              && ubicacionMgr.State() == t.state
              && (Ubicacion.Present(t.result) && t.state.earth.Some? ==>
                    simulator != null && earthLocation == t.state.earth
                    && systemStatus == "Sistema astronómico listo")
              && (Ubicacion.Present(t.result) && t.state.earth.None? ==>
                    simulator == null && systemStatus == "Error: No se pudo crear EarthLocation")
              && (!Ubicacion.Present(t.result) ==> simulator == null && systemStatus == "Detectando ubicación...")
      ensures currentTarget.None? && trackingStatus == "Inactivo" && selectedTargetIndex == 0
    {
      ubicacionMgr := new Ubicacion.UbicacionManager();
      simulator := null;
      ubicacionData := None;
      earthLocation := None;
      running := true;
      availableTargets := [];
      selectedTargetIndex := 0;
      currentTarget := None;
      targetCoords := None;
      telescopePos := None;
      trackingStatus := "Inactivo";
      systemStatus := "Inicializando sistema...";
      sunMoonInfo := None;
      new;
      InitializeSystem(disk);
    }

    /** `initialize_system`: a saved location sets the simulator up;
        otherwise detection starts (`DetectLocationAsync`, run on its own). */
    method InitializeSystem(disk: Ubicacion.Disk)
      requires Valid()
      modifies this, ubicacionMgr
      ensures Valid() && ubicacionMgr == old(ubicacionMgr) && running == old(running)
      ensures var t := Ubicacion.Load(old(ubicacionMgr.State()), disk.files, GuiFile);
              && ubicacionMgr.State() == t.state
              && (Ubicacion.Present(t.result) && t.state.earth.Some? ==>
                    simulator != null && fresh(simulator) && earthLocation == t.state.earth
                    && Ui() == old(Ui()).(availableTargets := CatalogNames(),
                                          systemStatus := "Sistema astronómico listo"))
              && (Ubicacion.Present(t.result) && t.state.earth.None? ==>
                    simulator == old(simulator)
                    && Ui() == old(Ui()).(systemStatus := "Error: No se pudo crear EarthLocation"))
              && (!Ubicacion.Present(t.result) ==>
                    simulator == old(simulator) && Ui() == old(Ui()).(systemStatus := "Detectando ubicación..."))
    {
      var r := ubicacionMgr.CargarUbicacion(disk, GuiFile);
      if Ubicacion.Present(r) {
        systemStatus := "Ubicación cargada desde archivo";
        SetupSimulator();
      } else {
        systemStatus := "Detectando ubicación...";
      }
    }

    /** `setup_simulator`: take the manager's record and frame; with a frame,
        a new simulator and the catalog as the target list. */
    method SetupSimulator()
      requires Valid()
      modifies this
      ensures Valid() && ubicacionMgr == old(ubicacionMgr) && running == old(running)
      ensures ubicacionData == ubicacionMgr.ubicacionActual && earthLocation == ubicacionMgr.earthLocation
      ensures earthLocation.Some? ==>
                && simulator != null && fresh(simulator)
                && simulator.earthLocation == earthLocation
                && simulator.targetObject.None? && !simulator.trackingActive
                && Ui() == old(Ui()).(availableTargets := CatalogNames(),
                                      systemStatus := "Sistema astronómico listo")
      ensures earthLocation.None? ==>
                simulator == old(simulator)
                && Ui() == old(Ui()).(systemStatus := "Error: No se pudo crear EarthLocation")
    {
      ubicacionData := ubicacionMgr.ubicacionActual;
      earthLocation := ubicacionMgr.GetEarthLocation();
      if earthLocation.Some? {
        simulator := new AstroTrackingSimulator(earthLocation);
        availableTargets := CatalogNames();
        systemStatus := "Sistema astronómico listo";
      } else {
        systemStatus := "Error: No se pudo crear EarthLocation";
      }
    }

    /** `detect_location_async`: look the location up; on success save it
        and set the simulator up, else report the failure. */
    method DetectLocationAsync(disk: Ubicacion.Disk, auto: Ubicacion.GeoReply,
                               alts: seq<Ubicacion.GeoReply>, now: string, writable: bool)
      requires Valid() && |alts| == |Ubicacion.AltProviders|
      modifies this, ubicacionMgr, disk
      ensures Valid() && ubicacionMgr == old(ubicacionMgr) && running == old(running)
      ensures var t := Ubicacion.Located(old(ubicacionMgr.State()), true, auto, alts, now);
              && ubicacionMgr.State() == t.state
              && (Ubicacion.Present(t.result) ==>
                    disk.files == Ubicacion.Save(t.state, old(disk.files), GuiFile, writable).files
                    && ubicacionData == t.result && earthLocation == t.state.earth)
              && (Ubicacion.Present(t.result) && t.state.earth.Some? ==>
                    simulator != null && fresh(simulator) && simulator.earthLocation == earthLocation
                    && simulator.targetObject.None? && !simulator.trackingActive
                    && Ui() == old(Ui()).(availableTargets := CatalogNames(),
                                          systemStatus := "Sistema astronómico listo"))
              && (Ubicacion.Present(t.result) && t.state.earth.None? ==>
                    simulator == old(simulator)
                    && Ui() == old(Ui()).(systemStatus := "Error: No se pudo crear EarthLocation"))
              && (!Ubicacion.Present(t.result) ==>
                    disk.files == old(disk.files) && simulator == old(simulator)
                    && Ui() == old(Ui()).(systemStatus := "Error: No se pudo detectar ubicación"))
    {
      var u := ubicacionMgr.ObtenerUbicacion(auto, alts, now);
      if Ubicacion.Present(u) {
        var _ := ubicacionMgr.GuardarUbicacion(disk, writable, GuiFile);
        SetupSimulator();
      } else {
        systemStatus := "Error: No se pudo detectar ubicación";
      }
    }

    /** One tick of the update thread. */
    method UpdateAstronomicalData(reading: SkyReading, t: Transform, ts: string, errAlt: real, errAz: real)
      requires -ErrorRange <= errAlt <= ErrorRange && -ErrorRange <= errAz <= ErrorRange
      requires Valid()
      modifies this
      ensures Valid() && simulator == old(simulator) && ubicacionMgr == old(ubicacionMgr)
      ensures running == old(running) && earthLocation == old(earthLocation)
      ensures Ui() == Tick(old(Ui()), simulator != null,
                           if simulator != null then simulator.targetObject else None,
                           if simulator != null then simulator.earthLocation else None,
                           reading, t, ts, errAlt, errAz)
    {
      if simulator == null {
        return;
      }
      ghost var u0 := Ui();
      var info := simulator.GetSunMoonInfo(reading);
      sunMoonInfo := info;
      ghost var u1 := u0.(sunMoonInfo := info);
      assert Ui() == u1;
      if currentTarget.Some? && currentTarget.value != "" {
        RefreshTarget(t, ts, errAlt, errAz);
        ghost var c := CoordsOf(simulator.targetObject, simulator.earthLocation, t, ts);
        assert Ui() == u1.(targetCoords := c,
                           telescopePos := Some(SimulateTelescopePosition(c, errAlt, errAz)),
                           trackingStatus := TrackingStatusFor(u0.currentTarget.value, c));
      }
    }

    /** The part of a tick that follows the current target: its coordinates,
        the simulated telescope and the tracking status. */
    method RefreshTarget(t: Transform, ts: string, errAlt: real, errAz: real)
      requires -ErrorRange <= errAlt <= ErrorRange && -ErrorRange <= errAz <= ErrorRange
      requires simulator != null && HasCurrent(Ui())
      modifies this
      ensures simulator == old(simulator) && ubicacionMgr == old(ubicacionMgr)
      ensures running == old(running) && earthLocation == old(earthLocation)
      ensures ubicacionData == old(ubicacionData)
      ensures var c := CoordsOf(simulator.targetObject, simulator.earthLocation, t, ts);
              Ui() == old(Ui()).(targetCoords := c,
                                 telescopePos := Some(SimulateTelescopePosition(c, errAlt, errAz)),
                                 trackingStatus := TrackingStatusFor(old(currentTarget).value, c))
    {
      var coords := simulator.GetTargetCoordinates(t, ts);
      targetCoords := coords;
      telescopePos := Some(SimulateTelescopePosition(coords, errAlt, errAz));
      trackingStatus := TrackingStatusFor(currentTarget.value, coords);
    }

    /** The UP key. */
    method KeyUp()
      requires Valid()
      modifies this
      ensures Valid() && Ui() == NavigateUp(old(Ui())) && simulator == old(simulator)
    {
      if availableTargets != [] {
        selectedTargetIndex := (selectedTargetIndex - 1) % |availableTargets|;
      }
    }

    /** The DOWN key. */
    method KeyDown()
      requires Valid()
      modifies this
      ensures Valid() && Ui() == NavigateDown(old(Ui())) && simulator == old(simulator)
    {
      if availableTargets != [] {
        selectedTargetIndex := (selectedTargetIndex + 1) % |availableTargets|;
      }
    }

    /** The RETURN key: the simulator takes the highlighted name as its target. */
    method KeyReturn()
      requires Valid()
      modifies this, simulator
      ensures Valid() && Ui() == Select(old(Ui()), old(simulator) != null) && simulator == old(simulator)
      ensures simulator != null ==>
                simulator.targetObject == Some(old(availableTargets[selectedTargetIndex]))
                && simulator.trackingActive
                && simulator.earthLocation == old(simulator.earthLocation)
    {
      if availableTargets != [] && simulator != null {
        var name := availableTargets[selectedTargetIndex];
        var ok := simulator.SetTarget(name);
        if ok {
          currentTarget := Some(name);
          trackingStatus := "Iniciando seguimiento de " + name;
        }
      }
    }

    /** The SPACE key: the simulator stops tracking and the window forgets the target. */
    method KeySpace()
      requires Valid()
      modifies this, simulator
      ensures Valid() && Ui() == Stop(old(Ui()), old(simulator) != null) && simulator == old(simulator)
      ensures simulator != null ==>
                !simulator.trackingActive && simulator.targetObject == old(simulator.targetObject)
    {
      if simulator != null {
        simulator.trackingActive := false;
        currentTarget := None;
        targetCoords := None;
        telescopePos := None;
        trackingStatus := "Seguimiento detenido";
      }
    }

    /** The R key: the status changes; detection then runs as `DetectLocationAsync`. */
    method KeyReload()
      requires Valid()
      modifies this
      ensures Valid() && Ui() == old(Ui()).(systemStatus := "Recargando ubicación...")
      ensures simulator == old(simulator)
    {
      systemStatus := "Recargando ubicación...";
    }

    /** The S key: with location data, save it and say so. */
    method KeySave(disk: Ubicacion.Disk, writable: bool)
      requires Valid()
      modifies this, disk
      ensures Valid() && simulator == old(simulator)
      ensures Ubicacion.Present(ubicacionData) ==>
                disk.files == Ubicacion.Save(ubicacionMgr.State(), old(disk.files), GuiFile, writable).files
                && Ui() == old(Ui()).(systemStatus := "Configuración guardada")
      ensures !Ubicacion.Present(ubicacionData) ==> disk.files == old(disk.files) && Ui() == old(Ui())
    {
      if Ubicacion.Present(ubicacionData) {
        var _ := ubicacionMgr.GuardarUbicacion(disk, writable, GuiFile);
        systemStatus := "Configuración guardada";
      }
    }

    /** The M key: Córdoba, Argentina (430 m) as the manual location, then a
        new simulator for it. */
    method KeyManual(now: string)
      requires Valid()
      modifies this, ubicacionMgr
      ensures Valid() && ubicacionMgr == old(ubicacionMgr)
      ensures earthLocation == Some(EarthLocation(-31.4065, -64.1885, 430.0))
      ensures ubicacionData == Some(Ubicacion.ManualRecord(-31.4065, -64.1885, 430.0, "Córdoba", "Argentina", now))
      ensures simulator != null && fresh(simulator) && simulator.earthLocation == earthLocation
      ensures Ui() == old(Ui()).(availableTargets := CatalogNames(),
                                 systemStatus := "Ubicación manual establecida")
    {
      var _ := ubicacionMgr.EstablecerUbicacionManual(now, -31.4065, -64.1885, 430.0, "Córdoba", "Argentina");
      SetupSimulator();
      systemStatus := "Ubicación manual establecida";
    }

    /** ESC or closing the window. */
    method Quit()
      modifies this
      ensures !running && Ui() == old(Ui()) && simulator == old(simulator)
    {
      running := false;
    }
  }

  /** `draw_target_selector`: up to eight rows from the window start, stopping
      at the end of the list; the highlighted row is the selection, and the
      selection is always among the rows drawn. */
  method SelectorRows(targets: seq<string>, sel: int, current: Option<string>) returns (rows: seq<Row>)
    ensures targets == [] ==> rows == []
    ensures targets != [] ==>
              var start := WindowStart(sel, |targets|);
              && |rows| == Min(VisibleTargets, |targets| - start)
              && (forall i | 0 <= i < |rows| ::
                    && rows[i].index == start + i && rows[i].name == targets[start + i]
                    && (rows[i].highlighted <==> start + i == sel)
                    && (rows[i].marker == Current <==> current == Some(targets[start + i]))
                    && (rows[i].marker == Selected <==> current != Some(targets[start + i]) && start + i == sel))
    ensures 0 <= sel < |targets| ==>
              var start := WindowStart(sel, |targets|);
              0 <= sel - start < |rows| && rows[sel - start].highlighted
  {
    rows := [];
    if targets == [] {
      return;
    }
    var start := WindowStart(sel, |targets|);
    var i := 0;
    while i < VisibleTargets
      invariant 0 <= i <= VisibleTargets && start + i <= |targets|
      invariant |rows| == i
      invariant forall k | 0 <= k < i ::
                  && rows[k].index == start + k && rows[k].name == targets[start + k]
                  && (rows[k].highlighted <==> start + k == sel)
                  && (rows[k].marker == Current <==> current == Some(targets[start + k]))
                  && (rows[k].marker == Selected <==> current != Some(targets[start + k]) && start + k == sel)
    {
      var index := start + i;
      if index >= |targets| {
        break;
      }
      var name := targets[index];
      var marker;
      if current == Some(name) {
        marker := Current;
      } else if index == sel {
        marker := Selected;
      } else {
        marker := Plain;
      }
      rows := rows + [Row(index, name, marker, index == sel)];
      i := i + 1;
    }
  }
}

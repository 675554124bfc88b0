# Astrotracker, modelled in Dafny

Astrotracker is a small amateur-astronomy toolkit. It has five parts:

- A location manager (`ubicacion.py`). It finds the observer's position by IP geolocation, with a fixed fallback chain of providers. It can also take a position from address geocoding or from manual entry. It adds reverse-geocoded detail and saves and loads the record as a JSON file.
- A tracking simulator (`astro_simulator.py`). It has a nine-star catalog, target selection and target coordinates. It classifies the day phase from the Sun's altitude, gives an observing verdict and simulates a telescope with a bounded random tracking error.
- A location-aware tracker (`astrotracker_ubicacion.py`). It initialises its observer frame from a saved location, or else from lookup. It judges visibility, night and observing conditions with its own rules.
- A serial controller for a CNC Shield (`comunicacion.py`). It validates the step size, speed and acceleration. It serialises jog (`M X.. Y.. Z..`) and parameter (`S v a`) commands as text lines, writes them to an open port and keeps its buttons in step with the connection.
- An advanced tracking window (`AppPC/astrotracker_advanced_gui.py`). It has a target selector driven by the arrow keys, RETURN and SPACE, and a once-a-second update of Sun/Moon data, target position and telescope. It also has a polar sky map, and status texts whose colour follows their wording.

Each source file is one module:

- `ubicacion.dfy` (`Ubicacion`)
- `astro_simulator.dfy` (`AstroSimulator`)
- `astrotracker_ubicacion.dfy` (`AstroTrackerUbicacion`)
- `comunicacion.dfy` (`Comunicacion`)
- `advanced_gui.dfy` (`AdvancedGui`)

`common.dfy` (`Common`) holds `Option`, the observer frame `EarthLocation` and a model of Python's substring test `in`.

The objects whose fields the program updates are classes with those fields: `UbicacionManager`, `AstroTrackingSimulator`, `AstroTrackerConUbicacion`, `CncApp` and `AdvancedAstrotrackerGui`. Their methods are proved against pure state-step functions: `Automatic`, `Alternative`, `Located`, `Manual`, `ByAddress`, `Detailed`, `Save`, `Load`, `Inicializar`, `NavigateUp`, `NavigateDown`, `Select`, `Stop` and `Tick`. The properties the program relies on are then lemmas about those functions.

The outside world enters as parameters:

- A geocoder answer is a `GeoReply`, one per provider; `Raised` means the call threw.
- The file system is the `Disk` object.
- The clock is the `now` / `ts` string.
- astropy's transforms are a `Transform` or `SkyReading` value holding the altitudes and azimuths it would compute, or the message of its exception.
- `random.uniform` draws are the `errAlt` / `errAz` parameters, constrained to [-0.1, 0.1].
- Python `int()` on a Tk text field is an `Option<int>`; `None` means `int()` raised.
- Whether `serial.Serial` opened, and what `readline` returned, are parameters.
- The bytes written to the port are the `wire` field.

Python truthiness is modelled explicitly:

- `Truthy` for record values: `None`, `0` and `""` are false.
- `Present` for a location record: `None` or an empty dict is false.
- `HasTarget` / `HasCurrent` for a target name.

The coordinate guard `if rec['latitud'] and rec['longitud']` therefore treats a zero coordinate as missing. `EquatorLosesFrameOnReload` and `ZeroLatitudeKeepsStaleFrame` show what that does.

## Model

| member | source | states |
|---|---|---|
| AstroSimulator.CatalogNames | astro_simulator.py:25-35 | the catalog lists nine names |
| AstroSimulator.Lookup | astro_simulator.py:44 | an entry exactly for a name that is a key of the catalog |
| AstroSimulator.LookupFindsEntry | astro_simulator.py:25-35 | a name has a catalog entry exactly when it is one of the nine catalog names |
| AstroSimulator.CatalogNamesAreKeys | astro_simulator.py:107-109 | `get_catalog_objects` lists exactly the catalog's keys, each once |
| AstroSimulator.AstroTrackingSimulator.constructor | astro_simulator.py:13-22 | a new simulator has the given location, no target and tracking off |
| AstroSimulator.AstroTrackingSimulator.SetTarget | astro_simulator.py:37-48 | succeeds exactly for catalog names, then targets the name and tracks; a refused name changes nothing |
| AstroSimulator.TargetCoordsFor | astro_simulator.py:63-105 | a position exactly when the name is in the catalog and the transform succeeded; it carries the transform's altitude and azimuth and the star's magnitude, and is visible and "Visible" exactly above the horizon; otherwise the "Error en cálculo" shape |
| AstroSimulator.VisibilityStatus | astro_simulator.py:86-88 | the status is "Visible" exactly for a visible target |
| AstroSimulator.AstroTrackingSimulator.GetTargetCoordinates | astro_simulator.py:50-61 | None exactly without a (truthy) target or a location; otherwise the coordinates of the target |
| AstroSimulator.AstroTrackingSimulator.CalculateTrackingRates | astro_simulator.py:111-131 | None exactly while tracking is off; otherwise 15 degrees/hour in RA and 0 in Dec |
| AstroSimulator.SimulateTelescopePosition | astro_simulator.py:133-168 | "Tracking active" exactly for a computed position; the telescope is then within 0.1 degrees of the target on each axis, offset by the reported errors; otherwise all zeros and "No tracking" |
| AstroSimulator.DayPhaseOf | astro_simulator.py:194-205 | the phase whose altitude band holds the Sun, and no other band holds it |
| AstroSimulator.DayPhaseMonotone | astro_simulator.py:194-205 | a lower Sun never gives a brighter phase |
| AstroSimulator.DayPhaseBoundaries | astro_simulator.py:196-204 | 6, -6, -12 and -18 degrees belong to the darker phase of each threshold |
| AstroSimulator.ObservingConditions | astro_simulator.py:219 | Good exactly in the night phase |
| AstroSimulator.GoodIffSunBelowMinus18 | astro_simulator.py:194-219 | the verdict is Good exactly when the Sun is at or below -18 degrees |
| AstroSimulator.SunMoonFor | astro_simulator.py:180-226 | the Sun/Moon dict exactly for a successful reading: altitudes and azimuths as read, each body visible exactly above the horizon, the phase's band holds the Sun, Good exactly at or below -18 degrees |
| AstroSimulator.AstroTrackingSimulator.GetSunMoonInfo | astro_simulator.py:170-178 | None exactly without a location, otherwise the Sun/Moon dict of the reading |
| Ubicacion.RebuildFrom | ubicacion.py:40-45 | the frame is kept exactly when a coordinate is falsy; a rebuilt frame has the record's coordinates and altitude; it raises exactly when a truthy coordinate or the altitude is not a number |
| Ubicacion.IpRecordNeverFails | ubicacion.py:26-45 | a record built from a geolocation answer never makes the frame raise |
| Ubicacion.MergeDetail | ubicacion.py:226-231 | the update adds the four detail keys with the answer's values and keeps every other key |
| Ubicacion.FirstAccepted | ubicacion.py:62-105 | the index of the first accepted reply, with every earlier one refused; None only when all are refused |
| Ubicacion.Adopt | ubicacion.py:39-45 | the record is replaced, and the frame changes only when the guard rebuilds it |
| Ubicacion.Automatic | ubicacion.py:17-54 | a record exactly when `geocoder.ip` answers ok with a `latlng` that is not a single value (empty gives None coordinates, two or more give the first two); the record carries those coordinates, the answer's provider and altitude 0, and is adopted through the truthiness guard; otherwise nothing changes |
| Ubicacion.Alternative | ubicacion.py:56-105 | a record exactly when some provider answers ok with a `latlng` that is not a single value; it comes from the first such of ipapi, freegeoip, maxmind, carries that answer's coordinates, is labelled with that provider and is adopted through the truthiness guard; otherwise nothing changes |
| Ubicacion.Located | ubicacion.py:138-150 | without lookup the current record unchanged; with it the automatic result, and the alternative chain only when that failed |
| Ubicacion.Manual | ubicacion.py:107-136 | the record holds exactly the given coordinates and altitude, with empty region and timezone, and the frame is always rebuilt from them |
| Ubicacion.ByAddress | ubicacion.py:152-202 | nothing changes exactly when no geocoder accepts; otherwise the first accepting one of arcgis, here, bing supplies record and frame, without the truthiness guard; the record holds that answer's coordinates and is labelled with that geocoder |
| Ubicacion.Detailed | ubicacion.py:204-243 | locates first only without a record; the unguarded `['latitud']` raises KeyError exactly for a present record without that key; with a truthy `latitud` and a `longitud`, the first accepting reverse geocoder's details are merged into the record; in every other case the record is the one after locating; what is returned is the record; the detail step never changes the frame |
| Ubicacion.Save | ubicacion.py:271-284 | writes exactly when there is a record and the file opens, and then only that file; otherwise the store is unchanged |
| Ubicacion.Load | ubicacion.py:286-309 | a missing or unreadable file changes nothing; otherwise the file's record is adopted, and the call returns None when the frame raised |
| Ubicacion.SaveLoadRoundTrip | ubicacion.py:271-300 | loading what was saved, into any manager, restores the record and the frame the guard derives from it |
| Ubicacion.ManualSaveReload | ubicacion.py:118-136 | a manual location with non-zero coordinates survives a save and reload: same record and same frame |
| Ubicacion.EquatorLosesFrameOnReload | ubicacion.py:294-300 | a manual location at latitude 0 has a frame until reloaded; a fresh manager that loads it has none |
| Ubicacion.ZeroLatitudeKeepsStaleFrame | ubicacion.py:39-45 | an IP answer at latitude 0 replaces the record but leaves the previous frame |
| Ubicacion.MissingAltitudeIsZero | ubicacion.py:296-300 | a saved record without altitude gives a frame at height 0 |
| Ubicacion.UbicacionManager.constructor | ubicacion.py:13-15 | a new manager has no record and no frame |
| Ubicacion.UbicacionManager.Replace | ubicacion.py:39-45 | the new state is the record adopted under the truthiness guard |
| Ubicacion.UbicacionManager.ObtenerUbicacionAutomatica | ubicacion.py:17-54 | new state and result are those of `Automatic` |
| Ubicacion.UbicacionManager.ObtenerUbicacionAlternativa | ubicacion.py:56-105 | the provider loop gives the new state and result of `Alternative` |
| Ubicacion.UbicacionManager.EstablecerUbicacionManual | ubicacion.py:107-136 | new state and result are those of `Manual` |
| Ubicacion.UbicacionManager.ObtenerUbicacion | ubicacion.py:138-150 | new state and result are those of `Located` |
| Ubicacion.UbicacionManager.ObtenerUbicacionPorDireccion | ubicacion.py:152-202 | the provider loop gives the new state and result of `ByAddress` |
| Ubicacion.UbicacionManager.ObtenerInformacionDetallada | ubicacion.py:204-243 | the reverse-provider loop gives the new state and outcome of `Detailed` |
| Ubicacion.UbicacionManager.ImprimirUbicacion | ubicacion.py:250-268 | raises exactly for a present record that lacks `latitud`, `longitud`, `altitud` or `timestamp`, or whose coordinates are not numbers |
| Ubicacion.UbicacionManager.GuardarUbicacion | ubicacion.py:271-284 | the store and result are those of `Save` |
| Ubicacion.UbicacionManager.CargarUbicacion | ubicacion.py:286-309 | new state and result are those of `Load` |
| AstroTrackerUbicacion.EsObjetoVisible | astrotracker_ubicacion.py:121-129 | visible means strictly above the minimum elevation, 10 degrees by default (a predicate; its properties are in `VisibilityRulesCompared`) |
| AstroTrackerUbicacion.EsNoche | astrotracker_ubicacion.py:146 | night means the Sun strictly below -6 degrees (a predicate; its properties are in `NightRulesDisagree`) |
| AstroTrackerUbicacion.CondicionesObservacion | astrotracker_ubicacion.py:146-154 | "Buenas" exactly when the Sun is below -6 degrees and the Moon below 30 |
| AstroTrackerUbicacion.VisibilityRulesCompared | astrotracker_ubicacion.py:121-129 | visible (above 10 degrees) implies above the horizon, but 5 degrees is above the horizon and not visible |
| AstroTrackerUbicacion.NightRulesDisagree | astrotracker_ubicacion.py:145-146 | the simulator's night is always night here, but -10 degrees is night only here |
| AstroTrackerUbicacion.ConditionRulesDisagree | astrotracker_ubicacion.py:146-154 | the two verdicts contradict each other in both directions, and agree on "good" at or below -18 degrees with the Moon below 30 |
| AstroTrackerUbicacion.Inicializar | astrotracker_ubicacion.py:18-40 | NoLocation exactly when neither the saved file nor a lookup gives a location, and then nothing is saved; a saved location is used as loaded and the file is not rewritten; otherwise the lookup's state, saved to `ubicacion_config.json` when writable; after success printing raises exactly when the record is not printable |
| AstroTrackerUbicacion.LookedUpLocationIsReloaded | astrotracker_ubicacion.py:24-34 | a location looked up and saved at start-up is the one the next start-up loads, with the same state, file and outcome and no second lookup |
| AstroTrackerUbicacion.AstroTrackerConUbicacion.constructor | astrotracker_ubicacion.py:13-16 | a fresh manager ends in the state and store of `Inicializar` from no record and no frame; the frame is the manager's after success and None otherwise |
| AstroTrackerUbicacion.AstroTrackerConUbicacion.InicializarUbicacion | astrotracker_ubicacion.py:18-40 | new state, store and outcome are those of `Inicializar`; the frame is the manager's unless no location was found, when it is unchanged |
| AstroTrackerUbicacion.AstroTrackerConUbicacion.CalcularPosicion | astrotracker_ubicacion.py:42-64 | None exactly without a frame, otherwise the body's elevation, azimuth and time |
| AstroTrackerUbicacion.AstroTrackerConUbicacion.CalcularPosicionEstrella | astrotracker_ubicacion.py:90-119 | None exactly without a frame, otherwise the position, echoing RA and Dec |
| AstroTrackerUbicacion.AstroTrackerConUbicacion.ObtenerInfoObservacion | astrotracker_ubicacion.py:131-157 | None exactly without a frame; otherwise night exactly below -6 degrees, "Buenas" exactly at night with the Moon below 30, and the manager's record |
| Comunicacion.NatToString | comunicacion.py:153-159 | the decimal text of a number is non-empty digits without a leading zero |
| Comunicacion.NatToStringValue | comunicacion.py:153-159 | the digits of a number's decimal text denote that number |
| Comunicacion.IntToStringRoundTrip | comunicacion.py:153-159 | reading back the decimal text of any integer gives that integer |
| Comunicacion.SplitJoin | comunicacion.py:162 | splitting space-joined words that contain no space gives the words back |
| Comunicacion.Moves | comunicacion.py:156-159 | no move exactly when all deltas are zero; each kept move is non-zero on X, Y or Z |
| Comunicacion.MovesDeltas | comunicacion.py:156-159 | each axis's delta is recovered from the kept moves |
| Comunicacion.JogCommand | comunicacion.py:144-162 | refused exactly for a step that is not a positive integer; nothing sent exactly for no motion |
| Comunicacion.JogLineRoundTrip | comunicacion.py:153-162 | the jog line for deltas that are not all zero reads back as exactly those deltas |
| Comunicacion.JogCommandDecodes | comunicacion.py:144-162 | a sent jog command moves each axis by its direction times the step |
| Comunicacion.JogLineAscii | comunicacion.py:170 | every jog line is ASCII, so `encode("ascii")` never fails on it |
| Comunicacion.ButtonSendsOneAxis | comunicacion.py:66-79 | with a valid step each of the six buttons sends one token: its axis and plus or minus the step |
| Comunicacion.ParamsCommand | comunicacion.py:132-142 | a line is sent exactly when both speed and acceleration are positive integers |
| Comunicacion.ParamsRoundTrip | comunicacion.py:142 | a sent parameter line reads back as exactly the speed and acceleration |
| Comunicacion.ParamsLineAscii | comunicacion.py:170 | every parameter line is ASCII |
| Comunicacion.StripLeft | comunicacion.py:172 | removes exactly the leading white space |
| Comunicacion.StripRight | comunicacion.py:172 | removes exactly the trailing white space |
| Comunicacion.CncApp.constructor | comunicacion.py:21-92 | no port, empty log, jog and Disconnect disabled, Connect enabled |
| Comunicacion.CncApp.HabilitarControles | comunicacion.py:126-130 | every jog button takes the given state |
| Comunicacion.CncApp.Conectar | comunicacion.py:101-113 | no port name: a warning only; a failed open: an error only; otherwise the port is open, jog and Disconnect enabled, Connect disabled, and the log gains "Conectado a <port> @ 115200 baud" |
| Comunicacion.CncApp.Desconectar | comunicacion.py:115-124 | closes an open port, disables jog and Disconnect, enables Connect and logs "Desconectado" |
| Comunicacion.CncApp.EnviarLinea | comunicacion.py:164-176 | no open port: a warning and nothing written; non-ASCII text: an error and nothing written; otherwise the line and a newline are written and logged, with the stripped reply when it is not empty |
| Comunicacion.CncApp.Mover | comunicacion.py:144-162 | a bad step gives the "Parámetros" warning, no motion sends nothing, otherwise exactly the jog line is written when the port is open |
| Comunicacion.CncApp.PulsarJog | comunicacion.py:66-79 | an enabled button with a valid step writes its one-axis jog line and keeps the buttons consistent |
| Comunicacion.CncApp.EnviarParametros | comunicacion.py:132-142 | invalid values give the "Parámetros" warning; otherwise exactly "S v a" is written when the port is open |
| Comunicacion.CncApp.Motores | comunicacion.py:84-85 | writes exactly "EN" or "DI" and a newline when the port is open, nothing otherwise |
| AdvancedGui.WindowStart | AppPC/astrotracker_advanced_gui.py:392-394 | the selector's first row is never negative, the selection is always inside the eight-row window, and a scrolled window is full |
| AdvancedGui.SelectorRows | AppPC/astrotracker_advanced_gui.py:390-418 | up to eight rows from the window start; each row shows its list entry, is highlighted exactly when selected, marked "►" exactly for the current target and "•" exactly for a selection that is not current; the selection is among the rows |
| AdvancedGui.MapRadiusRoundTrip | AppPC/astrotracker_advanced_gui.py:353 | the altitude-to-radius mapping of the sky map is inverted exactly by reading the altitude back |
| AdvancedGui.MapRadiusOrder | AppPC/astrotracker_advanced_gui.py:353 | a higher object plots closer to the centre; the zenith is the centre, the horizon the rim, and any altitude in (0, 90] lies inside the disc |
| AdvancedGui.SkyMarkers | AppPC/astrotracker_advanced_gui.py:346-381 | the target is drawn exactly when its coordinates say visible, the telescope exactly above the horizon, each at the distance its altitude maps to |
| AdvancedGui.MarkersOfComputedCoords | AppPC/astrotracker_advanced_gui.py:346-381 | for computed coordinates the target is drawn exactly when it is in the catalog and above the horizon, and then inside the disc when at most 90 degrees high; the telescope exactly when tracking puts it above the horizon |
| AdvancedGui.StatusColour | AppPC/astrotracker_advanced_gui.py:546-548 | failure exactly when the status contains "Error"; success exactly when it contains "listo" and no "Error"; a warning otherwise |
| AdvancedGui.TrackingColour | AppPC/astrotracker_advanced_gui.py:285-291 | success exactly when the text contains "Siguiendo"; a warning exactly for "no visible" without it; never the error colour |
| AdvancedGui.ReadyMessageColour | AppPC/astrotracker_advanced_gui.py:125 | the ready message shows as success |
| AdvancedGui.ErrorMessageColour | AppPC/astrotracker_advanced_gui.py:130 | every message that starts with "Error" shows as failure |
| AdvancedGui.DetectingMessageColour | AppPC/astrotracker_advanced_gui.py:109 | the detection message shows as a warning |
| AdvancedGui.ManualMessageColour | AppPC/astrotracker_advanced_gui.py:618 | the manual-location message shows as a warning |
| AdvancedGui.TrackingStatusColours | AppPC/astrotracker_advanced_gui.py:179-182 | for every catalog name, "Siguiendo <name>" shows as success and "<name> no visible" as a warning |
| AdvancedGui.NavigateUp | AppPC/astrotracker_advanced_gui.py:572-575 | only the selection index changes, and it stays inside the list |
| AdvancedGui.NavigateDown | AppPC/astrotracker_advanced_gui.py:577-580 | only the selection index changes, and it stays inside the list |
| AdvancedGui.NavigationWraps | AppPC/astrotracker_advanced_gui.py:572-580 | UP and DOWN move by one and wrap around the ends of the list |
| AdvancedGui.NavigationInverse | AppPC/astrotracker_advanced_gui.py:572-580 | UP undoes DOWN and DOWN undoes UP |
| AdvancedGui.Select | AppPC/astrotracker_advanced_gui.py:582-588 | with targets and a simulator the highlighted name becomes current with "Iniciando seguimiento de <name>"; otherwise nothing changes |
| AdvancedGui.Stop | AppPC/astrotracker_advanced_gui.py:590-597 | with a simulator the target, coordinates and telescope are cleared and the status is "Seguimiento detenido"; otherwise nothing changes |
| AdvancedGui.TrackingStatusFor | AppPC/astrotracker_advanced_gui.py:179-182 | "Siguiendo <name>" exactly when the coordinates say visible, "<name> no visible" exactly otherwise |
| AdvancedGui.Tick | AppPC/astrotracker_advanced_gui.py:160-187 | nothing without a simulator; with one, fresh Sun/Moon data from the reading when the simulator has a frame (else None); with a current target also the simulator's coordinates, the simulated telescope for them (tracking exactly for computed coordinates) and the status of `TrackingStatusFor` (following exactly when visible); without a current target those three are kept; selection, target list and system status are untouched |
| AdvancedGui.StaleTargetAfterNewSimulator | AppPC/astrotracker_advanced_gui.py:116-133 | a newly set-up simulator has no target while the window keeps its current one, so a tick reports that target as not visible, in the warning colour, at any altitude |
| AdvancedGui.SelectThenTick | AppPC/astrotracker_advanced_gui.py:582-588 | after RETURN the next tick follows the target, in the success colour, exactly when it is above the horizon, shows a warning otherwise, and draws the telescope exactly when it is above the horizon |
| AdvancedGui.AdvancedAstrotrackerGui.constructor | AppPC/astrotracker_advanced_gui.py:41-79 | a new window loads the saved location: with a frame the simulator is ready, without a frame an error, without a file detection starts |
| AdvancedGui.AdvancedAstrotrackerGui.InitializeSystem | AppPC/astrotracker_advanced_gui.py:101-114 | a loaded location sets up the simulator; otherwise "Detectando ubicación..." |
| AdvancedGui.AdvancedAstrotrackerGui.SetupSimulator | AppPC/astrotracker_advanced_gui.py:116-133 | with a frame, a new simulator for it and the catalog as the target list, "Sistema astronómico listo"; without, the error message and nothing else |
| AdvancedGui.AdvancedAstrotrackerGui.DetectLocationAsync | AppPC/astrotracker_advanced_gui.py:135-147 | the manager ends in the state of `Located`; a located position is saved and becomes the window's record and frame; with a frame a new simulator for it with no target lists the catalog and says "Sistema astronómico listo", without one only the EarthLocation error is shown; a failure only reports the detection error |
| AdvancedGui.AdvancedAstrotrackerGui.UpdateAstronomicalData | AppPC/astrotracker_advanced_gui.py:160-187 | the window state after the update is `Tick` of the state before |
| AdvancedGui.AdvancedAstrotrackerGui.RefreshTarget | AppPC/astrotracker_advanced_gui.py:175-182 | with a current target the coordinates become the simulator's, the telescope their simulation and the status that of `TrackingStatusFor`; nothing else changes |
| AdvancedGui.AdvancedAstrotrackerGui.KeyUp | AppPC/astrotracker_advanced_gui.py:572-575 | the state becomes `NavigateUp` of the old state |
| AdvancedGui.AdvancedAstrotrackerGui.KeyDown | AppPC/astrotracker_advanced_gui.py:577-580 | the state becomes `NavigateDown` of the old state |
| AdvancedGui.AdvancedAstrotrackerGui.KeyReturn | AppPC/astrotracker_advanced_gui.py:582-588 | the state becomes `Select` of the old state, and the simulator tracks the highlighted name |
| AdvancedGui.AdvancedAstrotrackerGui.KeySpace | AppPC/astrotracker_advanced_gui.py:590-597 | the state becomes `Stop` of the old state, and the simulator stops tracking |
| AdvancedGui.AdvancedAstrotrackerGui.KeyReload | AppPC/astrotracker_advanced_gui.py:599-604 | only the status changes, to "Recargando ubicación..." |
| AdvancedGui.AdvancedAstrotrackerGui.KeySave | AppPC/astrotracker_advanced_gui.py:606-610 | with location data the record is saved and the status says so; without, nothing changes |
| AdvancedGui.AdvancedAstrotrackerGui.KeyManual | AppPC/astrotracker_advanced_gui.py:612-618 | Córdoba (-31.4065, -64.1885, 430 m) becomes the location and frame, a new simulator lists the catalog, and the status says "Ubicación manual establecida" |
| AdvancedGui.AdvancedAstrotrackerGui.Quit | AppPC/astrotracker_advanced_gui.py:566-570 | the window stops running and nothing else changes |

## Left out

- The astropy transforms (equatorial to horizontal, Sun and Moon positions, local sidereal time) are not modelled. Their results are parameters, and `get_local_sidereal_time` and the GUI's `sidereal_time` field are not modelled at all.
- The threads and the once-a-second update loop are not modelled. Each tick, detection and key press is one method call, so interleavings of the update thread with key handling are not captured.
- pygame and Tk rendering are not modelled: fonts, panels, the starfield animation, pixel positions on the sky map (only the radius is modelled) and the `last_update` timestamps.
- The printing helpers are not modelled: `imprimir_info_observacion` and all `print` calls. Of `imprimir_ubicacion` only whether it raises is modelled (`ImprimirUbicacion`).
- AstroTrackerUbicacion.AstroTrackerConUbicacion.constructor: when printing raises (`PrintRaised`), the source's constructor raises and no object results; the model's constructor returns the object, with the state, store and frame reached before the raise.
- `listar_puertos` and `refrescar_puertos` are not modelled; they enumerate the host's serial ports. The chosen port name is a parameter.
- `obtener_ubicacion_rapida`, `create_simulator` and the GUI's `main`/`run` are not modelled; they are wiring around the modelled operations.
- The Python `int()` parse of the Tk fields is not modelled; its outcome is an `Option<int>` parameter. `ParseInt` is the receiving firmware's reading of the sent line, not Python's `int()`.
- Exceptions from `ser.write`, `ser.close` and `readline` are not modelled, except the ASCII encoding failure. The reply is the already-decoded string.
- Comunicacion.CncApp.Desconectar: does not model `ser.close()` raising, which in the source leaves the buttons unchanged; the model always closes.
- The generic `except Exception` branches of the GUI's `initialize_system`, `setup_simulator`, `detect_location_async` and `update_astronomical_data` are not modelled; no modelled step raises there.
- A JSON file that holds something other than an object (`null`, a list, a number) is treated as unreadable (`Unreadable`), which changes nothing. In the source `json.load` first replaces `ubicacion_actual` with that value (ubicacion.py:292) and only the following `.get` raises (ubicacion.py:295), so the record is lost while the old frame stays; the model does not capture that lost record.
- astropy's range check on latitude and the truthiness of an `EarthLocation` object are not modelled: a frame is present exactly when it is not `None`.
- `calcular_posicion_luna` is the same operation as `calcular_posicion_sol` with the Moon's values; both are `CalcularPosicion`.
- Floating point is not modelled: altitudes and coordinates are exact `real`s.

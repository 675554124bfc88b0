/** The location manager: it holds the current location record and the
    observer frame derived from it, fills them from IP geolocation providers
    (tried in a fixed fallback order), from address geocoding or from manual
    entry, adds reverse-geocoded detail, and saves/loads the record as a JSON
    file.

    Provider answers are inputs (`GeoReply`, one per provider, `Raised` when
    the call threw); the file system is the `Disk` object; the clock is the
    `now` parameter (the ISO timestamp `datetime.now()` would give). */
module Ubicacion {
  import opened Common

  // ----------------------------------------------------------------- records

  /** A JSON value as the location record holds it. */
  datatype Value = Null | Num(n: real) | Text(s: string)

  /** The location record: a dict from key to value. */
  type Record = map<string, Value>

  /** Python truthiness of a value: None, 0 and "" are false. */
  predicate Truthy(v: Value) {
    match v
    case Null => false
    case Num(n) => n != 0.0
    case Text(s) => s != ""
  }

  /** `rec.get(key)`: None for a missing key. */
  function Get(rec: Record, key: string): Value {
    if key in rec then rec[key] else Null
  }

  /** Python truthiness of `ubicacion_actual`: neither None nor an empty dict. */
  predicate Present(r: Option<Record>) {
    r.Some? && r.value != map[]
  }

  /** The answer of one geocoder call, or the exception it raised. Attributes
      that `getattr(g, name, '')` reads hold `Text("")` when absent. */
  datatype GeoReply =
    | Raised(message: string)
    | Answer(ok: bool, latlng: seq<real>, city: Value, country: Value, state: Value,
             timezone: Value, address: Value, provider: Value,
             postal: Value, neighborhood: Value)

  /** `g.latlng[k] if g.latlng else None` (with `k` < 2 and never one coordinate). */
  function Coordinate(latlng: seq<real>, k: nat): Value
    requires k < 2 && |latlng| != 1
  {
    if latlng == [] then Null else Num(latlng[k])
  }

  /** The record built from an IP-geolocation answer. */
  function IpRecord(g: GeoReply, proveedor: Value, now: string): Record
    requires g.Answer? && |g.latlng| != 1
  {
    map["latitud" := Coordinate(g.latlng, 0), "longitud" := Coordinate(g.latlng, 1),
        "ciudad" := g.city, "pais" := g.country, "region" := g.state,
        "timezone" := g.timezone, "direccion" := g.address, "altitud" := Num(0.0),
        "timestamp" := Text(now), "proveedor" := proveedor]
  }

  /** The record built from an address-geocoding answer. */
  function AddressRecord(g: GeoReply, proveedor: string, now: string): Record
    requires g.Answer? && |g.latlng| >= 2
  {
    map["latitud" := Num(g.latlng[0]), "longitud" := Num(g.latlng[1]),
        "ciudad" := g.city, "pais" := g.country, "region" := g.state,
        "timezone" := Text(""), "direccion" := g.address, "altitud" := Num(0.0),
        "timestamp" := Text(now), "proveedor" := Text(proveedor)]
  }

  /** The record of a manual entry. */
  function ManualRecord(latitud: real, longitud: real, altitud: real,
                        ciudad: string, pais: string, now: string): Record
  {
    map["latitud" := Num(latitud), "longitud" := Num(longitud),
        "ciudad" := Text(ciudad), "pais" := Text(pais), "region" := Text(""),
        "timezone" := Text(""), "altitud" := Num(altitud), "timestamp" := Text(now)]
  }

  /** The four keys reverse geocoding adds. */
  const DetailKeys: set<string> := {"direccion_completa", "codigo_postal", "barrio", "proveedor_detalle"}

  /** `ubicacion_actual.update({...})` with a reverse-geocoding answer: the
      four detail keys take the answer's values, every other key keeps its own. */
  function MergeDetail(rec: Record, g: GeoReply, proveedor: string): (r: Record)
    requires g.Answer?
    ensures r.Keys == rec.Keys + DetailKeys
    ensures forall k :: k in rec && k !in DetailKeys ==> r[k] == rec[k]
    ensures r["direccion_completa"] == g.address && r["codigo_postal"] == g.postal
    ensures r["barrio"] == g.neighborhood && r["proveedor_detalle"] == Text(proveedor)
  {
    rec["direccion_completa" := g.address]["codigo_postal" := g.postal]
       ["barrio" := g.neighborhood]["proveedor_detalle" := Text(proveedor)]
  }

  // --------------------------------------------------------- observer frame

  /** What the guard `if rec['latitud'] and rec['longitud']` does to the
      observer frame: keep the old one, build a new one, or raise (a truthy
      coordinate or altitude that is not a number). */
  datatype Rebuild = Keep | Build(loc: EarthLocation) | Fail

  /** The altitude used for the frame: `rec.get('altitud', 0)`. */
  function AltitudeOf(rec: Record): Value {
    if "altitud" in rec then rec["altitud"] else Num(0.0)
  }

  /** The frame is rebuilt only when both coordinates are truthy, and then
      from exactly the record's coordinates and altitude (0 when missing). */
  function RebuildFrom(rec: Record): (b: Rebuild)
    ensures b.Keep? <==> !Truthy(Get(rec, "latitud")) || !Truthy(Get(rec, "longitud"))
    ensures b.Build? ==> Get(rec, "latitud") == Num(b.loc.lat) && Get(rec, "longitud") == Num(b.loc.lon)
                         && AltitudeOf(rec) == Num(b.loc.height)
    ensures b.Fail? <==> !b.Keep? && !(Get(rec, "latitud").Num? && Get(rec, "longitud").Num? && AltitudeOf(rec).Num?)
  {
    if !Truthy(Get(rec, "latitud")) || !Truthy(Get(rec, "longitud")) then Keep
    else match (Get(rec, "latitud"), Get(rec, "longitud"), AltitudeOf(rec))
      case (Num(lat), Num(lon), Num(h)) => Build(EarthLocation(lat, lon, h))
      case _ => Fail
  }

  /** Records built from geolocation answers never make the frame raise. */
  lemma IpRecordNeverFails(g: GeoReply, proveedor: Value, now: string)
    requires g.Answer? && |g.latlng| != 1
    ensures !RebuildFrom(IpRecord(g, proveedor, now)).Fail?
  {
  }

  // ------------------------------------------------------- provider chains

  /** The three fallback chains of the manager. */
  datatype Chain = IpLookup | AddressLookup | ReverseLookup

  /** A reply that a chain takes: `g.ok`, and for the IP chains a `latlng`
      that is not a single coordinate (`latlng[1]` would raise), for address
      geocoding a non-empty `latlng` with two coordinates. */
  predicate Accepts(c: Chain, g: GeoReply) {
    g.Answer? && g.ok &&
    match c
    case IpLookup => |g.latlng| != 1
    case AddressLookup => |g.latlng| >= 2
    case ReverseLookup => true
  }

  const AltProviders: seq<string> := ["ipapi", "freegeoip", "maxmind"]
  const AddressProviders: seq<string> := ["arcgis", "here", "bing"]
  const ReverseProviders: seq<string> := ["arcgis", "here"]

  /** The first reply the chain takes: every earlier one is refused, and
      None only when all are refused. */
  function FirstAccepted(c: Chain, replies: seq<GeoReply>): (r: Option<nat>)
    ensures r.Some? ==> r.value < |replies| && Accepts(c, replies[r.value])
    ensures forall j :: 0 <= j < |replies| && (r.None? || j < r.value) ==> !Accepts(c, replies[j])
  {
    if replies == [] then None
    else if Accepts(c, replies[0]) then Some(0)
    else match FirstAccepted(c, replies[1..])
      case None => None
      case Some(i) => Some(i + 1)
  }

  // ------------------------------------------------------ manager as values

  /** The two fields of the manager: `ubicacion_actual` and `earth_location`. */
  datatype ManagerState = ManagerState(actual: Option<Record>, earth: Option<EarthLocation>)

  /** A manager operation's new state and return value. */
  datatype Step = Step(state: ManagerState, result: Option<Record>)

  const Fresh: ManagerState := ManagerState(None, None)

  /** Replace the record; the frame follows only where the truthiness guard allows. */
  function Adopt(s: ManagerState, rec: Record): (t: ManagerState)
    ensures t.actual == Some(rec)
    ensures RebuildFrom(rec).Build? ==> t.earth == Some(RebuildFrom(rec).loc)
    ensures !RebuildFrom(rec).Build? ==> t.earth == s.earth
  {
    match RebuildFrom(rec)
    case Build(loc) => ManagerState(Some(rec), Some(loc))
    case _ => ManagerState(Some(rec), s.earth)
  }

  /** `obtener_ubicacion_automatica`: a record from `geocoder.ip('me')` when it
      answers ok, labelled with the answer's provider; otherwise nothing changes. */
  function Automatic(s: ManagerState, g: GeoReply, now: string): (t: Step)
    ensures t.result.Some? <==> Accepts(IpLookup, g)
    ensures t.result.None? ==> t.state == s
    ensures t.result.Some? ==> t.state == Adopt(s, t.result.value) && Get(t.result.value, "proveedor") == g.provider
                               && Get(t.result.value, "altitud") == Num(0.0)
                               && Get(t.result.value, "latitud") == Coordinate(g.latlng, 0)
                               && Get(t.result.value, "longitud") == Coordinate(g.latlng, 1)
  {
    if Accepts(IpLookup, g) then
      var rec := IpRecord(g, g.provider, now);
      Step(Adopt(s, rec), Some(rec))
    else Step(s, None)
  }

  /** `obtener_ubicacion_alternativa`: the first of ipapi, freegeoip, maxmind
      that answers ok supplies the record, labelled with that provider's name. */
  function Alternative(s: ManagerState, replies: seq<GeoReply>, now: string): (t: Step)
    requires |replies| == |AltProviders|
    ensures t.result.Some? <==> exists j :: 0 <= j < |replies| && Accepts(IpLookup, replies[j])
    ensures t.result.None? ==> t.state == s
    ensures t.result.Some? ==>
              var i := FirstAccepted(IpLookup, replies).value;
              t.state == Adopt(s, t.result.value) && Get(t.result.value, "proveedor") == Text(AltProviders[i])
              && Get(t.result.value, "latitud") == Coordinate(replies[i].latlng, 0)
              && Get(t.result.value, "longitud") == Coordinate(replies[i].latlng, 1)
              && (forall j :: 0 <= j < i ==> !Accepts(IpLookup, replies[j]))
  {
    match FirstAccepted(IpLookup, replies)
    case None => Step(s, None)
    case Some(i) =>
      var rec := IpRecord(replies[i], Text(AltProviders[i]), now);
      Step(Adopt(s, rec), Some(rec))
  }

  /** `obtener_ubicacion`: without lookup, the current record unchanged; with
      it, the automatic lookup, and the alternative chain only if that failed. */
  function Located(s: ManagerState, intentarAutomatico: bool, auto: GeoReply,
                   alts: seq<GeoReply>, now: string): (t: Step)
    requires |alts| == |AltProviders|
    ensures !intentarAutomatico ==> t == Step(s, s.actual)
    ensures intentarAutomatico && Accepts(IpLookup, auto) ==> t == Automatic(s, auto, now)
    ensures intentarAutomatico && !Accepts(IpLookup, auto) ==> t == Alternative(s, alts, now)
  {
    if !intentarAutomatico then Step(s, s.actual)
    else
      var a := Automatic(s, auto, now);
      if a.result.Some? then a else Alternative(a.state, alts, now)
  }

  /** `establecer_ubicacion_manual`: the record holds exactly the given
      values, and the frame is always rebuilt from them. */
  function Manual(latitud: real, longitud: real, altitud: real,
                  ciudad: string, pais: string, now: string): (t: Step)
    ensures t.result == t.state.actual && t.result.Some?
    ensures Get(t.result.value, "latitud") == Num(latitud) && Get(t.result.value, "longitud") == Num(longitud)
            && Get(t.result.value, "altitud") == Num(altitud)
            && Get(t.result.value, "region") == Text("") && Get(t.result.value, "timezone") == Text("")
    ensures t.state.earth == Some(EarthLocation(latitud, longitud, altitud))
  {
    var rec := ManualRecord(latitud, longitud, altitud, ciudad, pais, now);
    Step(ManagerState(Some(rec), Some(EarthLocation(latitud, longitud, altitud))), Some(rec))
  }

  /** `obtener_ubicacion_por_direccion`: the first of arcgis, here, bing with
      an ok answer and coordinates supplies the record; the frame is rebuilt
      from those coordinates without any truthiness guard. */
  function ByAddress(s: ManagerState, replies: seq<GeoReply>, now: string): (t: Step)
    requires |replies| == |AddressProviders|
    ensures t.result.None? <==> forall j :: 0 <= j < |replies| ==> !Accepts(AddressLookup, replies[j])
    ensures t.result.None? ==> t.state == s
    ensures t.result.Some? ==>
              var i := FirstAccepted(AddressLookup, replies).value;
              var g := replies[i];
              t.state.actual == t.result
              && t.state.earth == Some(EarthLocation(g.latlng[0], g.latlng[1], 0.0))
              && Get(t.result.value, "proveedor") == Text(AddressProviders[i])
              && Get(t.result.value, "latitud") == Num(g.latlng[0])
              && Get(t.result.value, "longitud") == Num(g.latlng[1])
  {
    match FirstAccepted(AddressLookup, replies)
    case None => Step(s, None)
    case Some(i) =>
      var g := replies[i];
      var rec := AddressRecord(g, AddressProviders[i], now);
      Step(ManagerState(Some(rec), Some(EarthLocation(g.latlng[0], g.latlng[1], 0.0))), Some(rec))
  }

  /** What `obtener_informacion_detallada` hands back: a value, or the
      KeyError its unguarded `['latitud']` lets escape. */
  datatype Outcome = Returned(value: Option<Record>) | KeyErrorRaised(key: string)

  datatype DetailStep = DetailStep(state: ManagerState, outcome: Outcome)

  /** `obtener_informacion_detallada`: locate first if there is no record;
      then, for a record with a truthy latitude, merge the detail of the first
      reverse provider (arcgis, then here) that answers ok. */
  /** The state `obtener_informacion_detallada` works on: the current one, or
      the one a lookup leaves when no record is present. */
  function BeforeDetail(s: ManagerState, auto: GeoReply, alts: seq<GeoReply>, now: string): ManagerState
    requires |alts| == |AltProviders|
  {
    if Present(s.actual) then s else Located(s, true, auto, alts, now).state
  }

  /** The reverse lookup is attempted: a record with a truthy `latitud` and a
      `longitud` key (a missing `latitud` raises before this is asked). */
  predicate Reversible(s1: ManagerState) {
    Present(s1.actual) && "latitud" in s1.actual.value && Truthy(s1.actual.value["latitud"])
    && "longitud" in s1.actual.value
  }

  function Detailed(s: ManagerState, auto: GeoReply, alts: seq<GeoReply>,
                    reverse: seq<GeoReply>, now: string): (t: DetailStep)
    requires |alts| == |AltProviders| && |reverse| == |ReverseProviders|
    ensures var s1 := BeforeDetail(s, auto, alts, now);
            t.outcome.KeyErrorRaised? <==> Present(s1.actual) && "latitud" !in s1.actual.value
    ensures t.outcome.KeyErrorRaised? ==> t.outcome.key == "latitud"
    ensures t.outcome.Returned? ==> t.outcome.value == t.state.actual
    ensures t.state.earth == BeforeDetail(s, auto, alts, now).earth
    ensures var s1 := BeforeDetail(s, auto, alts, now);
            Reversible(s1) && FirstAccepted(ReverseLookup, reverse).Some? ==>
              var i := FirstAccepted(ReverseLookup, reverse).value;
              t.state.actual == Some(MergeDetail(s1.actual.value, reverse[i], ReverseProviders[i]))
              && forall j :: 0 <= j < i ==> !Accepts(ReverseLookup, reverse[j])
    ensures var s1 := BeforeDetail(s, auto, alts, now);
            !(Reversible(s1) && FirstAccepted(ReverseLookup, reverse).Some?) ==> t.state.actual == s1.actual
  {
    var s1 := BeforeDetail(s, auto, alts, now);
    if !Present(s1.actual) then DetailStep(s1, Returned(s1.actual))
    else
      var rec := s1.actual.value;
      if "latitud" !in rec then DetailStep(s1, KeyErrorRaised("latitud"))
      else if !Truthy(rec["latitud"]) || "longitud" !in rec then DetailStep(s1, Returned(s1.actual))
      else match FirstAccepted(ReverseLookup, reverse)
        case None => DetailStep(s1, Returned(s1.actual))
        case Some(i) =>
          var merged := MergeDetail(rec, reverse[i], ReverseProviders[i]);
          DetailStep(ManagerState(Some(merged), s1.earth), Returned(Some(merged)))
  }

  // ------------------------------------------------------------ persistence

  /** A record `imprimir_ubicacion` prints without raising: it reads
      `latitud`, `longitud`, `altitud` and `timestamp` by subscript (KeyError
      when missing) and formats both coordinates as fixed-point numbers
      (TypeError or ValueError for None or text). */
  predicate Imprimible(rec: Record) {
    && "latitud" in rec && rec["latitud"].Num?
    && "longitud" in rec && rec["longitud"].Num?
    && "altitud" in rec && "timestamp" in rec
  }

  /** A file of the store: a JSON object, or something `json.load` refuses. */
  datatype StoredFile = Json(rec: Record) | Unreadable

  datatype SaveStep = SaveStep(files: map<string, StoredFile>, ok: bool)

  /** `guardar_ubicacion`: write the record under `archivo` when there is one
      and the file can be opened for writing; otherwise write nothing. */
  function Save(s: ManagerState, files: map<string, StoredFile>, archivo: string,
                writable: bool): (t: SaveStep)
    ensures t.ok <==> Present(s.actual) && writable
    ensures t.ok ==> t.files == files[archivo := Json(s.actual.value)]
    ensures !t.ok ==> t.files == files
  {
    if Present(s.actual) && writable then SaveStep(files[archivo := Json(s.actual.value)], true)
    else SaveStep(files, false)
  }

  /** `cargar_ubicacion`: a missing or unreadable file changes nothing;
      otherwise the file's record replaces the current one and the frame is
      rebuilt under the truthiness guard; a frame that raises makes the
      call return None after the record was replaced. */
  function Load(s: ManagerState, files: map<string, StoredFile>, archivo: string): (t: Step)
    ensures archivo !in files || files[archivo].Unreadable? ==> t == Step(s, None)
    ensures archivo in files && files[archivo].Json? ==>
              t.state == Adopt(s, files[archivo].rec)
              && t.result == (if RebuildFrom(files[archivo].rec).Fail? then None
                              else Some(files[archivo].rec))
  {
    if archivo !in files || files[archivo].Unreadable? then Step(s, None)
    else
      var rec := files[archivo].rec;
      Step(Adopt(s, rec), if RebuildFrom(rec).Fail? then None else Some(rec))
  }

  // ------------------------------------------------------------ properties

  /** Saving a record and loading it into any manager (a fresh one, say)
      restores the record, and the frame that the guard derives from it. */
  lemma SaveLoadRoundTrip(s: ManagerState, files: map<string, StoredFile>, archivo: string,
                          other: ManagerState)
    requires Present(s.actual)
    ensures Save(s, files, archivo, true).ok
    ensures Load(other, Save(s, files, archivo, true).files, archivo).state == Adopt(other, s.actual.value)
    ensures !RebuildFrom(s.actual.value).Fail? ==>
              Load(other, Save(s, files, archivo, true).files, archivo).result == s.actual
  {
  }

  /** A manual location with non-zero coordinates survives a save and a
      reload into a fresh manager: the same record and the same frame. */
  lemma ManualSaveReload(latitud: real, longitud: real, altitud: real,
                         ciudad: string, pais: string, now: string,
                         files: map<string, StoredFile>, archivo: string)
    requires latitud != 0.0 && longitud != 0.0
    ensures var m := Manual(latitud, longitud, altitud, ciudad, pais, now);
            var loaded := Load(Fresh, Save(m.state, files, archivo, true).files, archivo);
            loaded.state == m.state && loaded.result == m.result
  {
    var m := Manual(latitud, longitud, altitud, ciudad, pais, now);
    assert m.state.actual.value != map[] by {
      assert "latitud" in m.state.actual.value;
    }
    assert RebuildFrom(m.state.actual.value) == Build(EarthLocation(latitud, longitud, altitud));
  }

  /** The truthiness guard: a manual location on the equator keeps its frame
      only until it is reloaded; a fresh manager that loads it has none. */
  lemma EquatorLosesFrameOnReload(longitud: real, altitud: real, ciudad: string, pais: string,
                                  now: string, files: map<string, StoredFile>, archivo: string)
    ensures var m := Manual(0.0, longitud, altitud, ciudad, pais, now);
            var loaded := Load(Fresh, Save(m.state, files, archivo, true).files, archivo);
            m.state.earth.Some? && loaded.state.earth.None? && loaded.result == m.result
  {
    var m := Manual(0.0, longitud, altitud, ciudad, pais, now);
    assert "latitud" in m.state.actual.value;
  }

  /** The truthiness guard: an IP answer with latitude 0 replaces the record
      but leaves the previous frame, whatever it was, in place. */
  lemma ZeroLatitudeKeepsStaleFrame(s: ManagerState, g: GeoReply, now: string)
    requires g.Answer? && g.ok && |g.latlng| >= 2 && g.latlng[0] == 0.0
    ensures Get(Automatic(s, g, now).state.actual.value, "latitud") == Num(0.0)
    ensures Automatic(s, g, now).state.earth == s.earth
  {
  }

  /** A file without `altitud` gives a frame at height 0. */
  lemma MissingAltitudeIsZero(s: ManagerState, files: map<string, StoredFile>, archivo: string,
                              lat: real, lon: real)
    requires archivo in files && files[archivo].Json?
    requires Get(files[archivo].rec, "latitud") == Num(lat) && lat != 0.0
    requires Get(files[archivo].rec, "longitud") == Num(lon) && lon != 0.0
    requires "altitud" !in files[archivo].rec
    ensures Load(s, files, archivo).state.earth == Some(EarthLocation(lat, lon, 0.0))
  {
  }

  // ------------------------------------------------------------- the objects

  /** The file system the manager reads and writes. */
  class Disk {
    var files: map<string, StoredFile>

    constructor (files: map<string, StoredFile>)
      ensures this.files == files
    {
      this.files := files;
    }
  }

  /** The default file of `guardar_ubicacion` / `cargar_ubicacion`. */
  const DefaultFile: string := "ubicacion_config.json"

  /** `UbicacionManager`: every method replaces `ubicacionActual` and
      `earthLocation` as the matching function above says. */
  class UbicacionManager {
    var ubicacionActual: Option<Record>
    var earthLocation: Option<EarthLocation>

    function State(): ManagerState
      reads this
    {
      ManagerState(ubicacionActual, earthLocation)
    }

    constructor ()
      ensures State() == Fresh
    {
      ubicacionActual := None;
      earthLocation := None;
    }

    /** `get_earth_location`. */
    function GetEarthLocation(): Option<EarthLocation>
      reads this
    {
      earthLocation
    }

    /** Replace the record and apply the truthiness guard of lines 40-45. */
    method Replace(rec: Record)
      modifies this
      ensures State() == Adopt(old(State()), rec)
    {
      ubicacionActual := Some(rec);
      if Truthy(Get(rec, "latitud")) && Truthy(Get(rec, "longitud")) {
        match (Get(rec, "latitud"), Get(rec, "longitud"), AltitudeOf(rec))
        case (Num(lat), Num(lon), Num(h)) => earthLocation := Some(EarthLocation(lat, lon, h));
        case _ =>
      }
    }

    method ObtenerUbicacionAutomatica(g: GeoReply, now: string) returns (r: Option<Record>)
      modifies this
      ensures Step(State(), r) == Automatic(old(State()), g, now)
    {
      match g
      case Raised(_) =>
        return None;
      case Answer(ok, latlng, _, _, _, _, _, _, _, _) =>
        if !ok || |latlng| == 1 {
          // not ok, or `latlng[1]` raised while building the record
          return None;
        }
        var rec := IpRecord(g, g.provider, now);
        Replace(rec);
        return Some(rec);
    }

    method ObtenerUbicacionAlternativa(replies: seq<GeoReply>, now: string) returns (r: Option<Record>)
      requires |replies| == |AltProviders|
      modifies this
      ensures Step(State(), r) == Alternative(old(State()), replies, now)
    {
      var i := 0;
      while i < |AltProviders|
        invariant 0 <= i <= |AltProviders|
        invariant forall j :: 0 <= j < i ==> !Accepts(IpLookup, replies[j])
        invariant State() == old(State())
      {
        var g := replies[i];
        if g.Answer? && g.ok && |g.latlng| != 1 {
          var rec := IpRecord(g, Text(AltProviders[i]), now);
          Replace(rec);
          return Some(rec);
        }
        i := i + 1;
      }
      return None;
    }

    method EstablecerUbicacionManual(now: string, latitud: real, longitud: real, altitud: real := 0.0,
                                     ciudad: string := "", pais: string := "") returns (r: Record)
      modifies this
      ensures Step(State(), Some(r)) == Manual(latitud, longitud, altitud, ciudad, pais, now)
    {
      r := ManualRecord(latitud, longitud, altitud, ciudad, pais, now);
      ubicacionActual := Some(r);
      earthLocation := Some(EarthLocation(latitud, longitud, altitud));
    }

    method ObtenerUbicacion(auto: GeoReply, alts: seq<GeoReply>, now: string,
                            intentarAutomatico: bool := true) returns (r: Option<Record>)
      requires |alts| == |AltProviders|
      modifies this
      ensures Step(State(), r) == Located(old(State()), intentarAutomatico, auto, alts, now)
    {
      if intentarAutomatico {
        r := ObtenerUbicacionAutomatica(auto, now);
        if r.None? {
          r := ObtenerUbicacionAlternativa(alts, now);
        }
      } else {
        r := ubicacionActual;
      }
    }

    method ObtenerUbicacionPorDireccion(replies: seq<GeoReply>, now: string) returns (r: Option<Record>)
      requires |replies| == |AddressProviders|
      modifies this
      ensures Step(State(), r) == ByAddress(old(State()), replies, now)
    {
      var i := 0;
      while i < |AddressProviders|
        invariant 0 <= i <= |AddressProviders|
        invariant forall j :: 0 <= j < i ==> !Accepts(AddressLookup, replies[j])
        invariant State() == old(State())
      {
        var g := replies[i];
        if g.Answer? && g.ok && |g.latlng| >= 2 {
          var rec := AddressRecord(g, AddressProviders[i], now);
          ubicacionActual := Some(rec);
          earthLocation := Some(EarthLocation(g.latlng[0], g.latlng[1], 0.0));
          return Some(rec);
        }
        i := i + 1;
      }
      return None;
    }

    method ObtenerInformacionDetallada(auto: GeoReply, alts: seq<GeoReply>,
                                       reverse: seq<GeoReply>, now: string) returns (o: Outcome)
      requires |alts| == |AltProviders| && |reverse| == |ReverseProviders|
      modifies this
      ensures DetailStep(State(), o) == Detailed(old(State()), auto, alts, reverse, now)
    {
      if !Present(ubicacionActual) {
        var _ := ObtenerUbicacion(auto, alts, now);
      }
      if !Present(ubicacionActual) {
        return Returned(ubicacionActual);
      }
      var rec := ubicacionActual.value;
      if "latitud" !in rec {
        return KeyErrorRaised("latitud");
      }
      if !Truthy(rec["latitud"]) || "longitud" !in rec {
        return Returned(ubicacionActual);
      }
      var i := 0;
      while i < |ReverseProviders|
        invariant 0 <= i <= |ReverseProviders|
        invariant forall j :: 0 <= j < i ==> !Accepts(ReverseLookup, reverse[j])
        invariant ubicacionActual == Some(rec)
      {
        var g := reverse[i];
        if g.Answer? && g.ok {
          ubicacionActual := Some(MergeDetail(rec, g, ReverseProviders[i]));
          break;
        }
        i := i + 1;
      }
      return Returned(ubicacionActual);
    }

    /** `imprimir_ubicacion`: the printing itself is left out; what is kept is
        whether it raises, which it does for a present record that is not
        `Imprimible`. */
    method ImprimirUbicacion() returns (raised: bool)
      ensures raised <==> Present(ubicacionActual) && !Imprimible(ubicacionActual.value)
    {
      if !Present(ubicacionActual) {
        return false;
      }
      var rec := ubicacionActual.value;
      raised := !("latitud" in rec && rec["latitud"].Num? && "longitud" in rec && rec["longitud"].Num?
                  && "altitud" in rec && "timestamp" in rec);
    }

    method GuardarUbicacion(disk: Disk, writable: bool, archivo: string := DefaultFile) returns (ok: bool)
      modifies disk
      ensures SaveStep(disk.files, ok) == Save(State(), old(disk.files), archivo, writable)
    {
      if Present(ubicacionActual) {
        if writable {
          disk.files := disk.files[archivo := Json(ubicacionActual.value)];
          return true;
        }
        return false;
      }
      return false;
    }

    method CargarUbicacion(disk: Disk, archivo: string := DefaultFile) returns (r: Option<Record>)
      modifies this
      ensures Step(State(), r) == Load(old(State()), disk.files, archivo)
    {
      if archivo !in disk.files || disk.files[archivo].Unreadable? {
        return None;
      }
      var rec := disk.files[archivo].rec;
      Replace(rec);
      if RebuildFrom(rec).Fail? {
        return None;
      }
      return Some(rec);
    }
  }
}

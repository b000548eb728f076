/**
  The map page's main script: the pure colour, icon and popup rules, and the
  module-level state it keeps while it builds the map — the Leaflet map,
  modelled as the set of layer handles currently attached to it, the four
  per-category collections of handles, the epicenter marker and the
  `layersVisible` flag.
 */
module MapScript {
  import opened Common
  import opened EarthquakeData

  // ---------------------------------------------------------------------------
  // Colours

  /** Marker colour of an affected area, by damage level; unknown levels are gray. */
  function DamageColor(level: string): (c: string)
    ensures c == "#dc2626" <==> level == "severe"
    ensures c == "#f59e0b" <==> level == "moderate"
    ensures c == "#10b981" <==> level == "light"
    ensures c == "#6b7280" <==> level != "severe" && level != "moderate" && level != "light"
  {
    match level
    case "severe" => "#dc2626"
    case "moderate" => "#f59e0b"
    case "light" => "#10b981"
    case _ => "#6b7280"
  }

  /** Marker colour of an infrastructure point, by status; unknown statuses are gray. */
  function InfrastructureColor(status: string): (c: string)
    ensures c == "#10b981" <==> status == "operational"
    ensures c == "#f59e0b" <==> status == "damaged"
    ensures c == "#dc2626" <==> status == "offline"
    ensures c == "#6b7280" <==> status != "operational" && status != "damaged" && status != "offline"
  {
    match status
    case "operational" => "#10b981"
    case "damaged" => "#f59e0b"
    case "offline" => "#dc2626"
    case _ => "#6b7280"
  }

  /**
    The Kamchatka dataset uses only damage levels and infrastructure statuses
    that have a colour of their own: no marker it produces falls back to grey.
   */
  lemma KamchatkaColours()
    ensures forall a :: a in Kamchatka.affectedAreas ==> DamageColor(a.damage.level) != "#6b7280"
    ensures forall p :: p in Kamchatka.infrastructureDamage ==> InfrastructureColor(p.status) != "#6b7280"
  {
  }

  // ---------------------------------------------------------------------------
  // Glyphs. The script file stores its emoji as UTF-8 that was decoded once
  // more as Windows-1254 and saved again, losing the bytes that code page
  // leaves undefined; the constants below are the code points as stored, with
  // the emoji each one was meant to be in the comment.

  const CityGlyph := "\U{11F}\U{178}\U{2122}"               // U+1F3D9 cityscape
  const TownGlyph := "\U{11F}\U{178}\U{2DC}"                 // U+1F3D8 houses
  const VillageGlyph := "\U{11F}\U{178}\U{A0}"               // U+1F3E0 house
  const PinGlyph := "\U{11F}\U{178}\U{201C}"                 // U+1F4CD round pushpin
  /** What is left of the emoji variation selector U+FE0F after the double decoding. */
  const VariationTail := "\U{EF}\U{B8}"
  const BridgeGlyph := "\U{11F}\U{178}\U{152}\U{2030}"       // U+1F309 bridge at night
  const PowerGlyph := "\U{E2}\U{161}\U{A1}"                  // U+26A1 high voltage
  const AirportGlyph := "\U{E2}\U{153}\U{2C6}\U{EF}\U{B8}"   // U+2708 U+FE0F airplane
  const PortGlyph := "\U{11F}\U{178}\U{161}\U{A2}"           // U+1F6A2 ship
  const HospitalGlyph := "\U{11F}\U{178}\U{A5}"              // U+1F3E5 hospital
  const ConstructionGlyph := "\U{11F}\U{178}\U{2014}\U{EF}\U{B8}" // U+1F3D7 U+FE0F construction

  /** The glyph drawn inside an affected-area marker. */
  function AreaIcon(kind: string): (g: string)
    ensures g == CityGlyph <==> kind == "city"
    ensures g == TownGlyph <==> kind == "town"
    ensures g == VillageGlyph <==> kind == "village"
    ensures g == PinGlyph <==> kind != "city" && kind != "town" && kind != "village"
  {
    match kind
    case "city" => CityGlyph
    case "town" => TownGlyph
    case "village" => VillageGlyph
    case _ => PinGlyph
  }

  /** The glyph in an affected-area popup title. */
  function AreaEmoji(kind: string): (g: string)
    ensures g == CityGlyph + VariationTail <==> kind == "city"
    ensures g == TownGlyph + VariationTail <==> kind == "town"
    ensures g == VillageGlyph <==> kind == "village"
    ensures g == PinGlyph <==> kind != "city" && kind != "town" && kind != "village"
  {
    assert (CityGlyph + VariationTail)[2] != (TownGlyph + VariationTail)[2];
    match kind
    case "city" => CityGlyph + VariationTail
    case "town" => TownGlyph + VariationTail
    case "village" => VillageGlyph
    case _ => PinGlyph
  }

  /** The glyph drawn inside an infrastructure marker. */
  function InfrastructureIcon(kind: string): (g: string)
    ensures g == BridgeGlyph <==> kind == "bridge"
    ensures g == PowerGlyph <==> kind == "power"
    ensures g == AirportGlyph <==> kind == "airport"
    ensures g == PortGlyph <==> kind == "port"
    ensures g == HospitalGlyph <==> kind == "hospital"
    ensures g == ConstructionGlyph <==>
      kind != "bridge" && kind != "power" && kind != "airport" && kind != "port" && kind != "hospital"
  {
    match kind
    case "bridge" => BridgeGlyph
    case "power" => PowerGlyph
    case "airport" => AirportGlyph
    case "port" => PortGlyph
    case "hospital" => HospitalGlyph
    case _ => ConstructionGlyph
  }

  /** The glyph in an infrastructure popup title. */
  function InfrastructureEmoji(kind: string): (g: string)
    ensures g == BridgeGlyph <==> kind == "bridge"
    ensures g == PowerGlyph <==> kind == "power"
    ensures g == AirportGlyph <==> kind == "airport"
    ensures g == PortGlyph <==> kind == "port"
    ensures g == HospitalGlyph <==> kind == "hospital"
    ensures g == ConstructionGlyph <==>
      kind != "bridge" && kind != "power" && kind != "airport" && kind != "port" && kind != "hospital"
  {
    match kind
    case "bridge" => BridgeGlyph
    case "power" => PowerGlyph
    case "airport" => AirportGlyph
    case "port" => PortGlyph
    case "hospital" => HospitalGlyph
    case _ => ConstructionGlyph
  }

  /** Marker and popup show the same infrastructure glyph, whatever the type. */
  lemma InfrastructureIconIsEmoji(kind: string)
    ensures InfrastructureIcon(kind) == InfrastructureEmoji(kind)
  {
  }

  /**
    Marker and popup show the same area glyph exactly for villages and
    unknown types (both fall back to the pin); for cities and towns the popup
    glyph is the marker glyph followed by the variation selector.
   */
  lemma AreaIconVersusEmoji(kind: string)
    ensures AreaIcon(kind) == AreaEmoji(kind) <==> kind != "city" && kind != "town"
    ensures kind == "city" || kind == "town" ==> AreaEmoji(kind) == AreaIcon(kind) + VariationTail
    ensures kind != "city" && kind != "town" && kind != "village" ==> AreaIcon(kind) == AreaEmoji(kind) == PinGlyph
  {
    if kind == "city" || kind == "town" {
      assert |AreaEmoji(kind)| == |AreaIcon(kind)| + 2;
    }
  }

  // ---------------------------------------------------------------------------
  // Popup field selection

  /** `s.split(' ')[0]`: the text before the first space, or all of it. */
  function FirstToken(s: string): (t: string)
    ensures |t| <= |s| && t == s[..|t|]
    ensures ' ' !in t
    ensures |t| < |s| ==> s[|t|] == ' '
  {
    if s == [] || s[0] == ' ' then [] else [s[0]] + FirstToken(s[1..])
  }

  const OutageText := "\U{E2}\U{152} Outage"            // U+274C cross mark, then " Outage"
  const NormalText := "\U{E2}\U{153}\U{2026} Normal"    // U+2705 check mark, then " Normal"

  /** The power line of an affected-area popup. */
  function PowerStatus(powerOutage: bool): (r: string)
    ensures r == OutageText <==> powerOutage
    ensures r == NormalText <==> !powerOutage
  {
    if powerOutage then OutageText else NormalText
  }

  /** The fields each popup shows, in display order (markup and inline styles are not modelled). */
  datatype Popup =
    | EpicenterPopup(magnitude: NumberText, depthKm: NumberText, lat: NumberText, lng: NumberText, time: string, region: string)
    | BufferPopup(title: string, radiusKm: real, riskLevel: string, expectedImpact: string)
    | AreaPopup(emoji: string, name: string, population: nat, damageLevel: string,
                buildingsDamaged: nat, injured: nat, power: string, description: string)
    | TsunamiPopup(name: string, maxWaveHeight: NumberText, damageLevel: string, status: string)
    | InfrastructurePopup(emoji: string, name: string, kind: string, status: string, description: string)
    | StationPopup(name: string, intensity: NumberText, status: string)

  // ---------------------------------------------------------------------------
  // Layers

  /**
    Names one layer object Leaflet creates: the creation function that made
    it and a serial number. The group travels with the object, as its shape
    and popup do.
   */
  datatype Handle = Handle(group: Group, serial: nat)

  /** The Leaflet options of a layer that the page sets or later restyles. */
  datatype Shape =
    | Circle(center: Coordinate, radiusMeters: real, color: string, fillColor: string,
             fillOpacity: real, weight: nat, dashArray: string)
    | Marker(position: Coordinate, iconColor: string, glyph: string, opacity: real)
    | Polygon(points: seq<Coordinate>, color: string, fillColor: string, fillOpacity: real, weight: nat)

  datatype Layer = Layer(shape: Shape, popup: Popup)

  /** Which of the page's creation functions made a layer. */
  datatype Group = EpicenterGroup | BufferGroup | AffectedGroup | TsunamiGroup | InfrastructureGroup | StationGroup

  /** Leaflet's default marker opacity. */
  const DefaultOpacity: real := 1.0

  /**
    The epicenter becomes a red marker at its coordinates, labelled with the
    magnitude; `toggleLayers` never restyles it.
   */
  function EpicenterLayer(e: Epicenter): (l: Layer)
    ensures l.shape.Marker? && l.shape.position == Coordinate(e.lat, e.lng)
    ensures l.shape.iconColor == "#dc2626" && l.shape.glyph == "M" + e.magnitude
    ensures l.popup.EpicenterPopup? && l.popup.magnitude == e.magnitude && l.popup.region == e.location
    ensures forall visible :: Restyled(l, EpicenterGroup, visible) == l
  {
    Layer(Marker(Coordinate(e.lat, e.lng), "#dc2626", "M" + e.magnitude, DefaultOpacity),
          EpicenterPopup(e.magnitude, e.depth, e.lat, e.lng, e.time, e.location))
  }

  /** A buffer zone becomes a circle around the epicenter; its radius is given in km and drawn in metres. */
  function BufferLayer(e: Epicenter, z: BufferZone): (l: Layer)
    ensures l.shape.Circle? && l.shape.radiusMeters / 1000.0 == z.radiusKm
    ensures l.popup.BufferPopup? && l.popup.radiusKm == z.radiusKm
    ensures l.popup.riskLevel == FirstToken(z.labelText)
  {
    Layer(Circle(Coordinate(e.lat, e.lng), z.radiusKm * 1000.0, z.color, z.fillColor, z.fillOpacity, z.weight, z.dashArray),
          BufferPopup(z.labelText, z.radiusKm, FirstToken(z.labelText), z.description))
  }

  /** An affected area becomes a marker coloured by its damage level. */
  function AreaLayer(a: AffectedArea): (l: Layer)
    ensures l.shape.Marker? && l.shape.iconColor == DamageColor(a.damage.level)
    ensures l.popup.AreaPopup? && (l.popup.power == OutageText <==> a.damage.powerOutage)
  {
    Layer(Marker(Coordinate(a.lat, a.lng), DamageColor(a.damage.level), AreaIcon(a.icon), DefaultOpacity),
          AreaPopup(AreaEmoji(a.icon), a.name, a.population, a.damage.level,
                    a.damage.buildingsDamaged, a.damage.injured, PowerStatus(a.damage.powerOutage), a.damage.description))
  }

  const TsunamiBlue := "#3b82f6"

  /**
    A tsunami area becomes a blue polygon through its coordinates, created in
    the style `toggleLayers` gives it when layers are shown.
   */
  function TsunamiLayer(t: TsunamiArea): (l: Layer)
    ensures l.shape.Polygon? && l.shape.points == t.coordinates
    ensures l.shape.color == l.shape.fillColor == TsunamiBlue
    ensures l.popup.TsunamiPopup? && l.popup.name == t.name && l.popup.maxWaveHeight == t.maxWaveHeight
    ensures Restyled(l, TsunamiGroup, true) == l
  {
    Layer(Polygon(t.coordinates, TsunamiBlue, TsunamiBlue, 0.3, 2),
          TsunamiPopup(t.name, t.maxWaveHeight, t.damage, "Tsunami Warning Lifted"))
  }

  /** An infrastructure point becomes a marker coloured by its status. */
  function InfrastructureLayer(p: InfrastructurePoint): (l: Layer)
    ensures l.shape.Marker? && l.shape.iconColor == InfrastructureColor(p.status)
    ensures l.popup.InfrastructurePopup? && l.shape.glyph == l.popup.emoji
  {
    InfrastructureIconIsEmoji(p.kind);
    Layer(Marker(Coordinate(p.lat, p.lng), InfrastructureColor(p.status), InfrastructureIcon(p.kind), DefaultOpacity),
          InfrastructurePopup(InfrastructureEmoji(p.kind), p.name, p.kind, p.status, p.description))
  }

  /**
    A monitoring station becomes a purple dot with no glyph at its
    coordinates; `toggleLayers` never restyles it.
   */
  function StationLayer(s: MonitoringStation): (l: Layer)
    ensures l.shape.Marker? && l.shape.position == Coordinate(s.lat, s.lng)
    ensures l.shape.iconColor == "#8b5cf6" && l.shape.glyph == ""
    ensures l.popup.StationPopup? && l.popup.name == s.name && l.popup.intensity == s.intensity
    ensures forall visible :: Restyled(l, StationGroup, visible) == l
  {
    Layer(Marker(Coordinate(s.lat, s.lng), "#8b5cf6", "", DefaultOpacity), StationPopup(s.name, s.intensity, s.status))
  }

  function BufferLayers(e: Epicenter, zones: seq<BufferZone>): (ls: seq<Layer>)
    ensures |ls| == |zones| && forall i :: 0 <= i < |zones| ==> ls[i] == BufferLayer(e, zones[i])
  {
    seq(|zones|, i requires 0 <= i < |zones| => BufferLayer(e, zones[i]))
  }

  function AreaLayers(areas: seq<AffectedArea>): (ls: seq<Layer>)
    ensures |ls| == |areas| && forall i :: 0 <= i < |areas| ==> ls[i] == AreaLayer(areas[i])
  {
    seq(|areas|, i requires 0 <= i < |areas| => AreaLayer(areas[i]))
  }

  function TsunamiLayers(areas: seq<TsunamiArea>): (ls: seq<Layer>)
    ensures |ls| == |areas| && forall i :: 0 <= i < |areas| ==> ls[i] == TsunamiLayer(areas[i])
  {
    seq(|areas|, i requires 0 <= i < |areas| => TsunamiLayer(areas[i]))
  }

  function InfrastructureLayers(points: seq<InfrastructurePoint>): (ls: seq<Layer>)
    ensures |ls| == |points| && forall i :: 0 <= i < |points| ==> ls[i] == InfrastructureLayer(points[i])
  {
    seq(|points|, i requires 0 <= i < |points| => InfrastructureLayer(points[i]))
  }

  function StationLayers(stations: seq<MonitoringStation>): (ls: seq<Layer>)
    ensures |ls| == |stations| && forall i :: 0 <= i < |stations| ==> ls[i] == StationLayer(stations[i])
  {
    seq(|stations|, i requires 0 <= i < |stations| => StationLayer(stations[i]))
  }

  // ---------------------------------------------------------------------------
  // Attaching and restyling

  /**
    The effect of `hs.forEach(l => visible ? l.addTo(map) : map.removeLayer(l))`
    on the set of attached handles: all of `hs` attached, or none of them,
    and every other handle as it was.
   */
  function Attach(on: set<Handle>, hs: seq<Handle>, visible: bool): (r: set<Handle>)
    ensures visible ==> Elems(hs) <= r
    ensures !visible ==> Elems(hs) !! r
    ensures forall h :: h !in hs ==> (h in r <==> h in on)
  {
    if visible then on + Elems(hs) else on - Elems(hs)
  }

  /** Attaching or detaching a collection a second time changes nothing. */
  lemma AttachIdempotent(on: set<Handle>, hs: seq<Handle>, visible: bool)
    ensures Attach(Attach(on, hs, visible), hs, visible) == Attach(on, hs, visible)
  {
  }

  /**
    How `toggleLayers` restyles one layer of a group for the new value of
    `layersVisible`. Leaflet's setStyle stores the style it is given in the
    layer's options, so a buffer circle shown again gets back the fill it
    holds at that moment, which hiding set to 0.
   */
  function Restyled(l: Layer, g: Group, visible: bool): (r: Layer)
    ensures r.popup == l.popup
    ensures (g == AffectedGroup || g == InfrastructureGroup) && l.shape.Marker? ==>
      r.shape == Marker(l.shape.position, l.shape.iconColor, l.shape.glyph, if visible then 1.0 else 0.3)
    ensures g == TsunamiGroup && l.shape.Polygon? ==>
      r.shape == Polygon(l.shape.points, l.shape.color, l.shape.fillColor, if visible then 0.3 else 0.1, l.shape.weight)
    ensures g == BufferGroup && l.shape.Circle? ==>
      r.shape == Circle(l.shape.center, l.shape.radiusMeters, l.shape.color, l.shape.fillColor,
                        if visible then l.shape.fillOpacity else 0.0, l.shape.weight, l.shape.dashArray)
    ensures g == EpicenterGroup || g == StationGroup ==> r == l
  {
    match (g, l.shape)
    case (BufferGroup, Circle(c, r, col, fc, fill, w, d)) =>
      l.(shape := Circle(c, r, col, fc, if visible then fill else 0.0, w, d))
    case (AffectedGroup, Marker(p, col, gl, _)) =>
      l.(shape := Marker(p, col, gl, if visible then 1.0 else 0.3))
    case (InfrastructureGroup, Marker(p, col, gl, _)) =>
      l.(shape := Marker(p, col, gl, if visible then 1.0 else 0.3))
    case (TsunamiGroup, Polygon(pts, col, fc, _, w)) =>
      l.(shape := Polygon(pts, col, fc, if visible then 0.3 else 0.1, w))
    case _ => l
  }

  /**
    Hiding then showing again restores markers and tsunami polygons that
    were in their shown style, but leaves every buffer circle with no fill.
   */
  lemma HideThenShow(l: Layer, g: Group)
    ensures g == AffectedGroup || g == InfrastructureGroup ==>
      l.shape.Marker? && l.shape.opacity == 1.0 ==> Restyled(Restyled(l, g, false), g, true) == l
    ensures g == TsunamiGroup && l.shape.Polygon? && l.shape.fillOpacity == 0.3 ==>
      Restyled(Restyled(l, g, false), g, true) == l
    ensures g == BufferGroup && l.shape.Circle? ==>
      Restyled(Restyled(l, g, false), g, true).shape.fillOpacity == 0.0
    ensures g == EpicenterGroup || g == StationGroup ==> Restyled(l, g, false) == Restyled(l, g, true) == l
  {
  }

  /** Restyling is idempotent, so restyling a layer twice in one pass is harmless. */
  lemma RestyledIdempotent(l: Layer, g: Group, visible: bool)
    ensures Restyled(Restyled(l, g, visible), g, visible) == Restyled(l, g, visible)
  {
  }

  /** The layer table after restyling each layer of `hs` as a member of group `g`. */
  function RestyleMap(m: map<Handle, Layer>, hs: seq<Handle>, g: Group, visible: bool): (r: map<Handle, Layer>)
    ensures r.Keys == m.Keys
  {
    map h | h in m :: if h in hs then Restyled(m[h], g, visible) else m[h]
  }

  /** The layer table after the four `forEach` loops of `toggleLayers`, in the source's order. */
  function ToggledLayers(m: map<Handle, Layer>, c: LayerCollections, visible: bool): (r: map<Handle, Layer>)
    ensures r.Keys == m.Keys
  {
    var m1 := RestyleMap(m, c.bufferCircles, BufferGroup, visible);
    var m2 := RestyleMap(m1, c.affectedMarkers, AffectedGroup, visible);
    var m3 := RestyleMap(m2, c.infrastructureMarkers, InfrastructureGroup, visible);
    RestyleMap(m3, c.tsunamiLayers, TsunamiGroup, visible)
  }

  /**
    One `forEach` of `toggleLayers`: restyles each layer of `hs`, in order,
    as a member of group `g`.
   */
  method RestyleEach(m: map<Handle, Layer>, hs: seq<Handle>, g: Group, visible: bool) returns (r: map<Handle, Layer>)
    ensures r == RestyleMap(m, hs, g, visible)
  {
    r := m;
    for i := 0 to |hs|
      invariant r == RestyleMap(m, hs[..i], g, visible)
    {
      assert hs[..i + 1] == hs[..i] + [hs[i]];
      if hs[i] in r {
        if hs[i] in hs[..i] {
          RestyledIdempotent(m[hs[i]], g, visible);
        }
        r := r[hs[i] := Restyled(r[hs[i]], g, visible)];
      }
    }
    assert hs[..|hs|] == hs;
  }

  /** The four `forEach` loops of `toggleLayers`, one after the other. */
  method RestyleCollections(m: map<Handle, Layer>, c: LayerCollections, visible: bool) returns (r: map<Handle, Layer>)
    ensures r == ToggledLayers(m, c, visible)
  {
    r := RestyleEach(m, c.bufferCircles, BufferGroup, visible);
    r := RestyleEach(r, c.affectedMarkers, AffectedGroup, visible);
    r := RestyleEach(r, c.infrastructureMarkers, InfrastructureGroup, visible);
    r := RestyleEach(r, c.tsunamiLayers, TsunamiGroup, visible);
  }

  lemma ElemsSnoc(hs: seq<Handle>, h: Handle)
    ensures Elems(hs + [h]) == Elems(hs) + {h}
  {
  }

  /** The handles of `hs` name, in order, the layers `ls` in the layer table `m`. */
  ghost predicate HoldsIn(m: map<Handle, Layer>, hs: seq<Handle>, ls: seq<Layer>)
  {
    |hs| == |ls| && forall i :: 0 <= i < |hs| ==> hs[i] in m && m[hs[i]] == ls[i]
  }

  lemma HoldsInExtends(m1: map<Handle, Layer>, m2: map<Handle, Layer>, hs: seq<Handle>, ls: seq<Layer>)
    requires HoldsIn(m1, hs, ls) && Extends(m1, m2)
    ensures HoldsIn(m2, hs, ls)
  {
  }

  /** `m2` keeps every layer of `m1` unchanged. */
  ghost predicate Extends(m1: map<Handle, Layer>, m2: map<Handle, Layer>)
  {
    forall h :: h in m1 ==> h in m2 && m2[h] == m1[h]
  }

  /**
    `hs` holds exactly the layers among `keys` that `g`'s creation function
    made: each of its handles is one of them, and none of them is missing.
   */
  ghost predicate Gathers(keys: set<Handle>, hs: seq<Handle>, g: Group)
  {
    && (forall i :: 0 <= i < |hs| ==> hs[i] in keys && hs[i].group == g)
    && (forall h :: h in keys && h.group == g ==> h in hs)
  }

  /** Adding the new handles `hs` of group `g` to the table and to `cs` keeps `cs` gathering `g`. */
  lemma GathersGrow(keys: set<Handle>, cs: seq<Handle>, hs: seq<Handle>, g: Group)
    requires Gathers(keys, cs, g)
    requires forall i :: 0 <= i < |hs| ==> hs[i].group == g
    ensures Gathers(keys + Elems(hs), cs + hs, g)
  {
  }

  /** Adding handles of group `g` to the table keeps a collection of another group complete. */
  lemma GathersKeep(keys: set<Handle>, cs: seq<Handle>, hs: seq<Handle>, g: Group, other: Group)
    requires Gathers(keys, cs, other) && g != other
    requires forall i :: 0 <= i < |hs| ==> hs[i].group == g
    ensures Gathers(keys + Elems(hs), cs, other)
  {
  }

  /** The four collections the page keeps of the layers it creates. */
  datatype LayerCollections = LayerCollections(
    bufferCircles: seq<Handle>, affectedMarkers: seq<Handle>,
    tsunamiLayers: seq<Handle>, infrastructureMarkers: seq<Handle>)
  {
    /** Every handle held by some collection. */
    function All(): set<Handle>
    {
      Elems(bufferCircles) + Elems(affectedMarkers) + Elems(tsunamiLayers) + Elems(infrastructureMarkers)
    }

    /** No handle belongs to two collections. */
    predicate Disjoint()
    {
      && Elems(bufferCircles) !! Elems(affectedMarkers)
      && Elems(bufferCircles) !! Elems(tsunamiLayers)
      && Elems(bufferCircles) !! Elems(infrastructureMarkers)
      && Elems(affectedMarkers) !! Elems(tsunamiLayers)
      && Elems(affectedMarkers) !! Elems(infrastructureMarkers)
      && Elems(tsunamiLayers) !! Elems(infrastructureMarkers)
    }
  }

  /**
    The layer table `m`, epicenter marker `em`, collections `c` and station
    markers `sm` after the first `steps` creation functions of
    `initializeMap` ran on `data` (epicenter, buffer zones, affected areas,
    tsunami areas, infrastructure, stations): each variable filled so far
    holds, in order, the layers made from its dataset entries, and the ones
    still to come are empty.
   */
  ghost predicate Staged(data: Dataset, steps: nat, m: map<Handle, Layer>, em: Option<Handle>,
                         c: LayerCollections, sm: seq<Handle>)
  {
    && (if steps >= 1 then em.Some? && em.value in m && m[em.value] == EpicenterLayer(data.earthquake.epicenter)
        else em == None)
    && (if steps >= 2 then HoldsIn(m, c.bufferCircles, BufferLayers(data.earthquake.epicenter, data.bufferZones))
        else c.bufferCircles == [])
    && (if steps >= 3 then HoldsIn(m, c.affectedMarkers, AreaLayers(data.affectedAreas)) else c.affectedMarkers == [])
    && (if steps >= 4 then HoldsIn(m, c.tsunamiLayers, TsunamiLayers(data.tsunamiAreas)) else c.tsunamiLayers == [])
    && (if steps >= 5 then HoldsIn(m, c.infrastructureMarkers, InfrastructureLayers(data.infrastructureDamage))
        else c.infrastructureMarkers == [])
    && (if steps >= 6 then HoldsIn(m, sm, StationLayers(data.monitoringStations)) else sm == [])
  }

  /** Growing the layer table keeps every collection filled so far. */
  lemma StagedExtends(data: Dataset, steps: nat, m0: map<Handle, Layer>, m1: map<Handle, Layer>,
                      em: Option<Handle>, c: LayerCollections, sm: seq<Handle>)
    requires Staged(data, steps, m0, em, c, sm) && Extends(m0, m1)
    ensures Staged(data, steps, m1, em, c, sm)
  {
    if steps >= 2 { HoldsInExtends(m0, m1, c.bufferCircles, BufferLayers(data.earthquake.epicenter, data.bufferZones)); }
    if steps >= 3 { HoldsInExtends(m0, m1, c.affectedMarkers, AreaLayers(data.affectedAreas)); }
    if steps >= 4 { HoldsInExtends(m0, m1, c.tsunamiLayers, TsunamiLayers(data.tsunamiAreas)); }
    if steps >= 5 { HoldsInExtends(m0, m1, c.infrastructureMarkers, InfrastructureLayers(data.infrastructureDamage)); }
    if steps >= 6 { HoldsInExtends(m0, m1, sm, StationLayers(data.monitoringStations)); }
  }

  /** Step 2: the new handles `hs` hold the layers of the buffer zones. */
  lemma StagedBuffer(data: Dataset, m0: map<Handle, Layer>, m1: map<Handle, Layer>, em: Option<Handle>,
                     c: LayerCollections, sm: seq<Handle>, hs: seq<Handle>)
    requires Staged(data, 1, m0, em, c, sm) && Extends(m0, m1)
    requires HoldsIn(m1, hs, BufferLayers(data.earthquake.epicenter, data.bufferZones))
    ensures Staged(data, 2, m1, em, c.(bufferCircles := c.bufferCircles + hs), sm)
  {
    StagedExtends(data, 1, m0, m1, em, c, sm);
    assert c.bufferCircles + hs == hs;
  }

  /** Step 3: the new handles `hs` hold the layers of the affected areas. */
  lemma StagedAffected(data: Dataset, m0: map<Handle, Layer>, m1: map<Handle, Layer>, em: Option<Handle>,
                     c: LayerCollections, sm: seq<Handle>, hs: seq<Handle>)
    requires Staged(data, 2, m0, em, c, sm) && Extends(m0, m1)
    requires HoldsIn(m1, hs, AreaLayers(data.affectedAreas))
    ensures Staged(data, 3, m1, em, c.(affectedMarkers := c.affectedMarkers + hs), sm)
  {
    StagedExtends(data, 2, m0, m1, em, c, sm);
    assert c.affectedMarkers + hs == hs;
  }

  /** Step 4: the new handles `hs` hold the layers of the tsunami areas. */
  lemma StagedTsunami(data: Dataset, m0: map<Handle, Layer>, m1: map<Handle, Layer>, em: Option<Handle>,
                     c: LayerCollections, sm: seq<Handle>, hs: seq<Handle>)
    requires Staged(data, 3, m0, em, c, sm) && Extends(m0, m1)
    requires HoldsIn(m1, hs, TsunamiLayers(data.tsunamiAreas))
    ensures Staged(data, 4, m1, em, c.(tsunamiLayers := c.tsunamiLayers + hs), sm)
  {
    StagedExtends(data, 3, m0, m1, em, c, sm);
    assert c.tsunamiLayers + hs == hs;
  }

  /** Step 5: the new handles `hs` hold the layers of the infrastructure points. */
  lemma StagedInfrastructure(data: Dataset, m0: map<Handle, Layer>, m1: map<Handle, Layer>, em: Option<Handle>,
                     c: LayerCollections, sm: seq<Handle>, hs: seq<Handle>)
    requires Staged(data, 4, m0, em, c, sm) && Extends(m0, m1)
    requires HoldsIn(m1, hs, InfrastructureLayers(data.infrastructureDamage))
    ensures Staged(data, 5, m1, em, c.(infrastructureMarkers := c.infrastructureMarkers + hs), sm)
  {
    StagedExtends(data, 4, m0, m1, em, c, sm);
    assert c.infrastructureMarkers + hs == hs;
  }

  /** Step 6: the new handles `hs` hold the layers of the monitoring stations. */
  lemma StagedStations(data: Dataset, m0: map<Handle, Layer>, m1: map<Handle, Layer>, em: Option<Handle>,
                       c: LayerCollections, sm: seq<Handle>, hs: seq<Handle>)
    requires Staged(data, 5, m0, em, c, sm) && Extends(m0, m1)
    requires HoldsIn(m1, hs, StationLayers(data.monitoringStations))
    ensures Staged(data, 6, m1, em, c, sm + hs)
  {
    StagedExtends(data, 5, m0, m1, em, c, sm);
    assert sm + hs == hs;
  }

  // ---------------------------------------------------------------------------
  // The script's module-level state

  class Scene {
    /** The handles currently on the Leaflet map. */
    var attached: set<Handle>
    /** Every layer created so far, attached or not. */
    var layers: map<Handle, Layer>
    /** The serial number of the next layer to create. */
    var next: nat
    var earthquakeMarker: Option<Handle>
    var bufferCircles: seq<Handle>
    var affectedMarkers: seq<Handle>
    var tsunamiLayers: seq<Handle>
    var infrastructureMarkers: seq<Handle>
    var layersVisible: bool
    /** The station markers: attached, but kept in no variable of the page. */
    ghost var stationMarkers: seq<Handle>

    /** Serial numbers are handed out below `next`. */
    ghost predicate Allocated()
      reads this`layers, this`next
    {
      forall h :: h in layers ==> h.serial < next
    }

    /** Only created layers are on the map. */
    ghost predicate OnMap()
      reads this`attached, this`layers
    {
      attached <= layers.Keys
    }

    /** Each variable of the page holds exactly the layers of its creation function. */
    ghost predicate Valid()
      reads this`layers, this`next, this`earthquakeMarker, this`bufferCircles, this`affectedMarkers
      reads this`tsunamiLayers, this`infrastructureMarkers, this`stationMarkers
    {
      && Allocated()
      && (earthquakeMarker.Some? ==> earthquakeMarker.value in layers && earthquakeMarker.value.group == EpicenterGroup)
      && Gathers(layers.Keys, bufferCircles, BufferGroup)
      && Gathers(layers.Keys, affectedMarkers, AffectedGroup)
      && Gathers(layers.Keys, tsunamiLayers, TsunamiGroup)
      && Gathers(layers.Keys, infrastructureMarkers, InfrastructureGroup)
      && Gathers(layers.Keys, stationMarkers, StationGroup)
    }

    function Collections(): LayerCollections
      reads this`bufferCircles, this`affectedMarkers, this`tsunamiLayers, this`infrastructureMarkers
    {
      LayerCollections(bufferCircles, affectedMarkers, tsunamiLayers, infrastructureMarkers)
    }

    /** The collections never share a handle, and neither the epicenter nor a station is in one. */
    lemma CollectionsDisjoint()
      requires Valid()
      ensures Collections().Disjoint()
      ensures earthquakeMarker.Some? ==> earthquakeMarker.value !in Collections().All()
      ensures Elems(stationMarkers) !! Collections().All()
    {
    }

    /**
      The state after the first `steps` calls of `initializeMap` on `data`
      (epicenter, buffer zones, affected areas, tsunami areas,
      infrastructure, stations): every layer made so far is attached, each
      variable filled so far holds, in order, the layers made from its
      dataset entries, and the ones still to come are empty.
     */
    ghost predicate Initialized(data: Dataset, steps: nat)
      reads this
    {
      && attached == layers.Keys
      && Staged(data, steps, layers, earthquakeMarker, Collections(), stationMarkers)
    }

    /** Script load: the page's variables before `initializeMap` runs. */
    constructor ()
      ensures Valid() && OnMap() && layersVisible
      ensures forall data :: Initialized(data, 0)
    {
      attached, layers, next := {}, map[], 0;
      earthquakeMarker := None;
      bufferCircles, affectedMarkers, tsunamiLayers, infrastructureMarkers := [], [], [], [];
      layersVisible := true;
      stationMarkers := [];
    }

    /**
      `initializeMap`: the six creation functions in order, each layer
      attached as it is created.
     */
    method InitializeMap(data: Dataset)
      requires Valid() && OnMap() && Initialized(data, 0)
      modifies this`next, this`layers, this`attached, this`earthquakeMarker
      modifies this`bufferCircles, this`affectedMarkers, this`tsunamiLayers, this`infrastructureMarkers, this`stationMarkers
      ensures Valid() && OnMap() && Initialized(data, 6)
    {
      AddEpicenter(data);
      var hs := AddBufferZones(data);
      hs := AddAffectedAreas(data);
      hs := AddTsunamiAreas(data);
      hs := AddInfrastructureDamage(data);
      hs := AddMonitoringStations(data);
    }

    /**
      Creates one layer per element of `ls`, in order, as layers of group
      `g`, and attaches each one to the map.
     */
    method CreateEach(ls: seq<Layer>, g: Group) returns (hs: seq<Handle>)
      requires Allocated() && OnMap()
      modifies this`next, this`layers, this`attached
      ensures Allocated() && OnMap()
      ensures |hs| == |ls|
      ensures forall i :: 0 <= i < |hs| ==> hs[i] == Handle(g, old(next) + i)
      ensures Distinct(hs)
      ensures forall i :: 0 <= i < |hs| ==> hs[i] !in old(layers) && hs[i] in layers && layers[hs[i]] == ls[i]
      ensures layers.Keys == old(layers).Keys + Elems(hs)
      ensures forall h :: h in Elems(hs) ==> h.group == g
      ensures forall h :: h in old(layers) ==> layers[h] == old(layers)[h]
      ensures attached == old(attached) + Elems(hs)
    {
      hs := [];
      for i := 0 to |ls|
        invariant Allocated() && OnMap()
        invariant |hs| == i && next == old(next) + i
        invariant forall k :: 0 <= k < i ==> hs[k] == Handle(g, old(next) + k)
        invariant forall k :: 0 <= k < i ==> hs[k] in layers && layers[hs[k]] == ls[k]
        invariant layers.Keys == old(layers).Keys + Elems(hs)
        invariant forall h :: h in old(layers) ==> layers[h] == old(layers)[h]
        invariant attached == old(attached) + Elems(hs)
      {
        ghost var before := hs;
        var h := Create(ls[i], g);
        hs := hs + [h];
        ElemsSnoc(before, h);
      }
    }

    /** Creates one layer of group `g` and attaches it to the map. */
    method Create(l: Layer, g: Group) returns (h: Handle)
      requires Allocated() && OnMap()
      modifies this`next, this`layers, this`attached
      ensures Allocated() && OnMap()
      ensures h == Handle(g, old(next)) && next == old(next) + 1 && h !in old(layers)
      ensures layers == old(layers)[h := l]
      ensures attached == old(attached) + {h}
    {
      h := Handle(g, next);
      layers := layers[h := l];
      attached := attached + {h};
      next := next + 1;
    }

    /** `addEpicenter`: one attached marker, remembered as `earthquakeMarker` and in no collection. */
    method AddEpicenter(data: Dataset)
      requires Valid() && OnMap()
      modifies this`next, this`layers, this`attached, this`earthquakeMarker
      ensures Valid() && OnMap()
      ensures earthquakeMarker.Some? && earthquakeMarker.value !in old(layers)
      ensures layers == old(layers)[earthquakeMarker.value := EpicenterLayer(data.earthquake.epicenter)]
      ensures attached == old(attached) + {earthquakeMarker.value}
      ensures old(Initialized(data, 0)) ==> Initialized(data, 1)
    {
      var h := Create(EpicenterLayer(data.earthquake.epicenter), EpicenterGroup);
      earthquakeMarker := Some(h);
    }

    /** `addBufferZones`: one attached circle per zone, pushed onto `bufferCircles` in dataset order. */
    method AddBufferZones(data: Dataset) returns (ghost hs: seq<Handle>)
      requires Valid() && OnMap()
      modifies this`next, this`layers, this`attached, this`bufferCircles
      ensures Valid() && OnMap()
      ensures bufferCircles == old(bufferCircles) + hs
      ensures HoldsIn(layers, hs, BufferLayers(data.earthquake.epicenter, data.bufferZones))
      ensures Extends(old(layers), layers)
      ensures forall i :: 0 <= i < |hs| ==> hs[i] !in old(layers)
      ensures Distinct(hs)
      ensures layers.Keys == old(layers).Keys + Elems(hs)
      ensures attached == old(attached) + Elems(hs)
      ensures old(Initialized(data, 1)) ==> Initialized(data, 2)
    {
      var created := CreateEach(BufferLayers(data.earthquake.epicenter, data.bufferZones), BufferGroup);
      bufferCircles := bufferCircles + created;
      hs := created;
      GathersGrow(old(layers).Keys, old(bufferCircles), created, BufferGroup);
      GathersKeep(old(layers).Keys, affectedMarkers, created, BufferGroup, AffectedGroup);
      GathersKeep(old(layers).Keys, tsunamiLayers, created, BufferGroup, TsunamiGroup);
      GathersKeep(old(layers).Keys, infrastructureMarkers, created, BufferGroup, InfrastructureGroup);
      GathersKeep(old(layers).Keys, stationMarkers, created, BufferGroup, StationGroup);
      if old(Initialized(data, 1)) {
        StagedBuffer(data, old(layers), layers, earthquakeMarker, old(Collections()), stationMarkers, created);
      }
    }

    /** `addAffectedAreas`: one attached marker per area, pushed onto `affectedMarkers` in dataset order. */
    method AddAffectedAreas(data: Dataset) returns (ghost hs: seq<Handle>)
      requires Valid() && OnMap()
      modifies this`next, this`layers, this`attached, this`affectedMarkers
      ensures Valid() && OnMap()
      ensures affectedMarkers == old(affectedMarkers) + hs
      ensures HoldsIn(layers, hs, AreaLayers(data.affectedAreas))
      ensures Extends(old(layers), layers)
      ensures forall i :: 0 <= i < |hs| ==> hs[i] !in old(layers)
      ensures Distinct(hs)
      ensures layers.Keys == old(layers).Keys + Elems(hs)
      ensures attached == old(attached) + Elems(hs)
      ensures old(Initialized(data, 2)) ==> Initialized(data, 3)
    {
      var created := CreateEach(AreaLayers(data.affectedAreas), AffectedGroup);
      affectedMarkers := affectedMarkers + created;
      hs := created;
      GathersGrow(old(layers).Keys, old(affectedMarkers), created, AffectedGroup);
      GathersKeep(old(layers).Keys, bufferCircles, created, AffectedGroup, BufferGroup);
      GathersKeep(old(layers).Keys, tsunamiLayers, created, AffectedGroup, TsunamiGroup);
      GathersKeep(old(layers).Keys, infrastructureMarkers, created, AffectedGroup, InfrastructureGroup);
      GathersKeep(old(layers).Keys, stationMarkers, created, AffectedGroup, StationGroup);
      if old(Initialized(data, 2)) {
        StagedAffected(data, old(layers), layers, earthquakeMarker, old(Collections()), stationMarkers, created);
      }
    }

    /** `addTsunamiAreas`: one attached polygon per area, pushed onto `tsunamiLayers` in dataset order. */
    method AddTsunamiAreas(data: Dataset) returns (ghost hs: seq<Handle>)
      requires Valid() && OnMap()
      modifies this`next, this`layers, this`attached, this`tsunamiLayers
      ensures Valid() && OnMap()
      ensures tsunamiLayers == old(tsunamiLayers) + hs
      ensures HoldsIn(layers, hs, TsunamiLayers(data.tsunamiAreas))
      ensures Extends(old(layers), layers)
      ensures forall i :: 0 <= i < |hs| ==> hs[i] !in old(layers)
      ensures Distinct(hs)
      ensures layers.Keys == old(layers).Keys + Elems(hs)
      ensures attached == old(attached) + Elems(hs)
      ensures old(Initialized(data, 3)) ==> Initialized(data, 4)
    {
      var created := CreateEach(TsunamiLayers(data.tsunamiAreas), TsunamiGroup);
      tsunamiLayers := tsunamiLayers + created;
      hs := created;
      GathersGrow(old(layers).Keys, old(tsunamiLayers), created, TsunamiGroup);
      GathersKeep(old(layers).Keys, bufferCircles, created, TsunamiGroup, BufferGroup);
      GathersKeep(old(layers).Keys, affectedMarkers, created, TsunamiGroup, AffectedGroup);
      GathersKeep(old(layers).Keys, infrastructureMarkers, created, TsunamiGroup, InfrastructureGroup);
      GathersKeep(old(layers).Keys, stationMarkers, created, TsunamiGroup, StationGroup);
      if old(Initialized(data, 3)) {
        StagedTsunami(data, old(layers), layers, earthquakeMarker, old(Collections()), stationMarkers, created);
      }
    }

    /** `addInfrastructureDamage`: one attached marker per point, pushed onto `infrastructureMarkers` in dataset order. */
    method AddInfrastructureDamage(data: Dataset) returns (ghost hs: seq<Handle>)
      requires Valid() && OnMap()
      modifies this`next, this`layers, this`attached, this`infrastructureMarkers
      ensures Valid() && OnMap()
      ensures infrastructureMarkers == old(infrastructureMarkers) + hs
      ensures HoldsIn(layers, hs, InfrastructureLayers(data.infrastructureDamage))
      ensures Extends(old(layers), layers)
      ensures forall i :: 0 <= i < |hs| ==> hs[i] !in old(layers)
      ensures Distinct(hs)
      ensures layers.Keys == old(layers).Keys + Elems(hs)
      ensures attached == old(attached) + Elems(hs)
      ensures old(Initialized(data, 4)) ==> Initialized(data, 5)
    {
      var created := CreateEach(InfrastructureLayers(data.infrastructureDamage), InfrastructureGroup);
      infrastructureMarkers := infrastructureMarkers + created;
      hs := created;
      GathersGrow(old(layers).Keys, old(infrastructureMarkers), created, InfrastructureGroup);
      GathersKeep(old(layers).Keys, bufferCircles, created, InfrastructureGroup, BufferGroup);
      GathersKeep(old(layers).Keys, affectedMarkers, created, InfrastructureGroup, AffectedGroup);
      GathersKeep(old(layers).Keys, tsunamiLayers, created, InfrastructureGroup, TsunamiGroup);
      GathersKeep(old(layers).Keys, stationMarkers, created, InfrastructureGroup, StationGroup);
      if old(Initialized(data, 4)) {
        StagedInfrastructure(data, old(layers), layers, earthquakeMarker, old(Collections()), stationMarkers, created);
      }
    }

    /** `addMonitoringStations`: one attached marker per station, kept in no variable of the page (only the ghost `stationMarkers` records them). */
    method AddMonitoringStations(data: Dataset) returns (ghost hs: seq<Handle>)
      requires Valid() && OnMap()
      modifies this`next, this`layers, this`attached, this`stationMarkers
      ensures Valid() && OnMap()
      ensures stationMarkers == old(stationMarkers) + hs
      ensures HoldsIn(layers, hs, StationLayers(data.monitoringStations))
      ensures Extends(old(layers), layers)
      ensures forall i :: 0 <= i < |hs| ==> hs[i] !in old(layers)
      ensures Distinct(hs)
      ensures layers.Keys == old(layers).Keys + Elems(hs)
      ensures attached == old(attached) + Elems(hs)
      ensures old(Initialized(data, 5)) ==> Initialized(data, 6)
    {
      var created := CreateEach(StationLayers(data.monitoringStations), StationGroup);
      stationMarkers := stationMarkers + created;
      hs := created;
      GathersGrow(old(layers).Keys, old(stationMarkers), created, StationGroup);
      GathersKeep(old(layers).Keys, bufferCircles, created, StationGroup, BufferGroup);
      GathersKeep(old(layers).Keys, affectedMarkers, created, StationGroup, AffectedGroup);
      GathersKeep(old(layers).Keys, tsunamiLayers, created, StationGroup, TsunamiGroup);
      GathersKeep(old(layers).Keys, infrastructureMarkers, created, StationGroup, InfrastructureGroup);
      if old(Initialized(data, 5)) {
        StagedStations(data, old(layers), layers, earthquakeMarker, Collections(), old(stationMarkers), created);
      }
    }

    /** Attaches (`addTo(map)`) or detaches (`map.removeLayer`) each handle of `hs`, in order. */
    method SetAttached(hs: seq<Handle>, visible: bool)
      requires OnMap() && Elems(hs) <= layers.Keys
      modifies this`attached
      ensures OnMap()
      ensures attached == Attach(old(attached), hs, visible)
    {
      for i := 0 to |hs|
        invariant OnMap()
        invariant attached == Attach(old(attached), hs[..i], visible)
      {
        assert hs[..i + 1] == hs[..i] + [hs[i]];
        if visible {
          attached := attached + {hs[i]};
        } else {
          attached := attached - {hs[i]};
        }
      }
      assert hs[..|hs|] == hs;
    }

    /**
      `toggleLayers`: flips `layersVisible` and restyles the four
      collections; nothing is attached or detached, and the epicenter and
      station markers keep their style.
     */
    method ToggleLayers()
      requires Valid() && OnMap()
      modifies this`layersVisible, this`layers
      ensures Valid() && OnMap()
      ensures layersVisible == !old(layersVisible)
      ensures layers == ToggledLayers(old(layers), Collections(), layersVisible)
    {
      var visible := !layersVisible;
      var m := RestyleCollections(layers, Collections(), visible);
      layers, layersVisible := m, visible;
    }

    /**
      `toggleLayers` restyles every layer by the function that created it,
      attaches and detaches nothing, and leaves the epicenter and station
      markers as they were.
     */
    lemma ToggledByOrigin(visible: bool)
      requires Valid()
      ensures ToggledLayers(layers, Collections(), visible).Keys == layers.Keys
      ensures forall h :: h in layers ==>
        ToggledLayers(layers, Collections(), visible)[h] == Restyled(layers[h], h.group, visible)
    {
      forall h | h in layers
        ensures ToggledLayers(layers, Collections(), visible)[h] == Restyled(layers[h], h.group, visible)
      {
        Membership(h);
      }
    }

    /** Under `Valid`, a layer is in a collection exactly when that collection's creation function made it. */
    lemma Membership(h: Handle)
      requires Valid() && h in layers
      ensures h in bufferCircles <==> h.group == BufferGroup
      ensures h in affectedMarkers <==> h.group == AffectedGroup
      ensures h in tsunamiLayers <==> h.group == TsunamiGroup
      ensures h in infrastructureMarkers <==> h.group == InfrastructureGroup
    {
    }
  }
}

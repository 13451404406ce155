/**
 * The map step (`MapStep`). The Leaflet map is modelled abstractly: a map
 * instance holds its layers keyed by object identity (Leaflet stamps every
 * layer object with a fresh id), each layer being a tile layer for one theme,
 * a plain marker, or a circle marker. The component keeps the map instance
 * (`mapRef`), and each run of its effect builds four fresh tile layer
 * objects, adds the default theme if that object is not on the map,
 * registers a theme-change listener, clears the layers that pass the
 * `instanceof L.Marker` test and adds one circle marker per location.
 */
module MapView {
  import opened Common

  datatype LatLng = LatLng(lat: real, lng: real)

  /** A tile source of the theme registry (constant data; tiles are never fetched). */
  datatype TileSource = TileSource(urlTemplate: string, attribution: string, maxZoom: nat)

  /** The four entries of the theme registry, in the order the registry lists them. */
  datatype Theme = EsriImagery | Osm | Dark | Light

  /** The options passed to `L.circleMarker`; the fill colour is kept as its HSL hue. */
  datatype PathStyle = PathStyle(
    radius: nat, fillHue: real, color: string, weight: nat, opacity: real, fillOpacity: real)

  /** The kinds of layer a map can hold. */
  datatype Kind =
    | Tile(theme: Theme)
    | Marker(position: LatLng)
    | CircleMarker(center: LatLng, style: PathStyle)

  /** A map's layers, keyed by the identity of the layer object. */
  type Layers = map<nat, Kind>

  /** The theme attached when the map is first shown. */
  const DefaultTheme := EsriImagery

  /** The four themes in the order the registry lists them. */
  const RegistryOrder := [EsriImagery, Osm, Dark, Light]

  /** The values of the theme selector's options, in the order they are listed. */
  const OptionValues := ["esri-imagery", "osm", "dark", "light"]

  /**
   * The registry key of a theme, which is also the selector option's value:
   * the selector lists the themes in registry order.
   */
  function ThemeKey(t: Theme): (key: string)
    ensures key == OptionValues[TileOffset(t)]
  {
    match t
    case EsriImagery => "esri-imagery"
    case Osm => "osm"
    case Dark => "dark"
    case Light => "light"
  }

  /** `themes[key]`: the theme registered under `key`, if any. */
  function ThemeOfKey(key: string): (r: Option<Theme>)
    ensures r.Some? ==> ThemeKey(r.value) == key
    ensures forall t :: ThemeKey(t) == key ==> r == Some(t)
  {
    if key == "esri-imagery" then Some(EsriImagery)
    else if key == "osm" then Some(Osm)
    else if key == "dark" then Some(Dark)
    else if key == "light" then Some(Light)
    else None
  }

  /** The tile source registered for a theme: only the default imagery stops at zoom 18. */
  function Source(t: Theme): (src: TileSource)
    ensures 18 <= src.maxZoom <= 19
    ensures src.maxZoom == 18 <==> t == DefaultTheme
  {
    match t
    case EsriImagery =>
      TileSource("https://server.arcgisonline.com/ArcGIS/rest/services/World_Imagery/MapServer/tile/{z}/{y}/{x}",
        "&copy; Esri", 18)
    case Osm => TileSource("https://{s}.tile.openstreetmap.org/{z}/{x}/{y}.png", "&copy; OpenStreetMap contributors", 19)
    case Dark => TileSource("https://{s}.basemaps.cartocdn.com/dark_all/{z}/{x}/{y}{r}.png", "&copy; CARTO", 19)
    case Light => TileSource("https://{s}.basemaps.cartocdn.com/light_all/{z}/{x}/{y}{r}.png", "&copy; CARTO", 19)
  }

  /**
   * The position of a theme's tile layer among the four fresh objects an
   * effect run creates: the object for theme `t` has identity `base + TileOffset(t)`.
   */
  function TileOffset(t: Theme): (n: nat)
    ensures n < |RegistryOrder| && RegistryOrder[n] == t
    ensures t == DefaultTheme <==> n == 0
  {
    match t
    case EsriImagery => 0
    case Osm => 1
    case Dark => 2
    case Light => 3
  }

  /** The four `themes[key]` objects of a run are distinct: different themes never share an identity. */
  lemma TileOffsetsDistinct(t: Theme, u: Theme)
    ensures t != u ==> TileOffset(t) != TileOffset(u)
  {
  }

  /**
   * `layer instanceof L.Marker`. In Leaflet a circle marker is a vector path,
   * not a marker, and a tile layer is neither, so only `Marker` passes.
   */
  predicate IsLeafletMarker(k: Kind): (b: bool)
    ensures b <==> !(k.Tile? || k.CircleMarker?)
  {
    k.Marker?
  }

  /** The fill colour's hue: red (0) for confidence 0, green (120) for confidence 1, never clamped. */
  function Hue(confidence: real): (h: real)
    ensures confidence == 0.0 ==> h == 0.0
    ensures confidence == 1.0 ==> h == 120.0
    ensures confidence == 0.5 ==> h == 60.0
  {
    confidence * 120.0
  }

  /** The hue is linear in the confidence and increasing. */
  lemma HueIsLinear(a: real, b: real)
    ensures Hue(a + b) == Hue(a) + Hue(b)
    ensures a < b ==> Hue(a) < Hue(b)
  {
  }

  /** The circle marker created for one location. */
  function CircleMarkerFor(loc: Location): (k: Kind)
    ensures k.CircleMarker? && !IsLeafletMarker(k)
    ensures k.center == LatLng(loc.latitude, loc.longitude)
    ensures k.style.fillHue == Hue(loc.confidence)
  {
    CircleMarker(LatLng(loc.latitude, loc.longitude), PathStyle(8, Hue(loc.confidence), "#000", 1, 1.0, 0.8))
  }

  /**
   * Every marker has radius 8, border #000, weight 1, opacity 1 and fill
   * opacity 0.8: two markers' styles differ at most in their hue.
   */
  lemma MarkerStyleIndependentOfLocation(a: Location, b: Location)
    ensures CircleMarkerFor(a).style.(fillHue := 0.0) == CircleMarkerFor(b).style.(fillHue := 0.0)
    ensures CircleMarkerFor(a).style == PathStyle(8, Hue(a.confidence), "#000", 1, 1.0, 0.8)
  {
  }

  /** The layers that survive the marker clear loop: all but those passing `instanceof L.Marker`. */
  function WithoutMarkers(ls: Layers): (r: Layers)
    ensures forall id :: id in r <==> id in ls && !IsLeafletMarker(ls[id])
    ensures forall id :: id in r ==> r[id] == ls[id]
  {
    map id | id in ls && !IsLeafletMarker(ls[id]) :: ls[id]
  }

  /** The circle markers added for `locs`, the i-th with identity `base + i`. */
  function NewMarkers(locs: seq<Location>, base: nat): Layers
    decreases |locs|
  {
    if locs == [] then map[]
    else
      var n := |locs| - 1;
      NewMarkers(locs[..n], base)[base + n := CircleMarkerFor(locs[n])]
  }

  /** The markers occupy exactly the identities `base .. base + |locs| - 1`. */
  lemma {:induction false} NewMarkersKeys(locs: seq<Location>, base: nat)
    ensures forall id :: id in NewMarkers(locs, base) <==> base <= id < base + |locs|
    decreases |locs|
  {
    if locs != [] {
      NewMarkersKeys(locs[..|locs| - 1], base);
    }
  }

  /** The layer with identity `base + i` is the circle marker of `locs[i]`. */
  lemma {:induction false} NewMarkersAt(locs: seq<Location>, base: nat)
    ensures forall id :: base <= id < base + |locs| ==>
      id in NewMarkers(locs, base) && NewMarkers(locs, base)[id] == CircleMarkerFor(locs[id - base])
    decreases |locs|
  {
    if locs != [] {
      var n := |locs| - 1;
      var prefix := locs[..n];
      NewMarkersAt(prefix, base);
      forall id | base <= id < base + n
        ensures id in NewMarkers(locs, base) && NewMarkers(locs, base)[id] == CircleMarkerFor(locs[id - base])
      {
        assert prefix[id - base] == locs[id - base];
      }
    }
  }

  /** None of the new layers passes `instanceof L.Marker`: they are all circle markers. */
  lemma {:induction false} NewMarkersNoMarker(locs: seq<Location>, base: nat)
    ensures forall id :: id in NewMarkers(locs, base) ==> NewMarkers(locs, base)[id].CircleMarker?
    decreases |locs|
  {
    if locs != [] {
      NewMarkersNoMarker(locs[..|locs| - 1], base);
    }
  }

  /** One new layer per location. */
  lemma {:induction false} NewMarkersCount(locs: seq<Location>, base: nat)
    ensures |NewMarkers(locs, base).Keys| == |locs|
    decreases |locs|
  {
    if locs != [] {
      var n := |locs| - 1;
      var prefix := locs[..n];
      NewMarkersCount(prefix, base);
      NewMarkersKeys(prefix, base);
      assert NewMarkers(locs, base).Keys == NewMarkers(prefix, base).Keys + {base + n};
    }
  }

  /** The identities of the circle markers among `ls`. */
  function CircleMarkerIds(ls: Layers): set<nat>
  {
    set id | id in ls && ls[id].CircleMarker?
  }

  /** The identities of the tile layers among `ls`. */
  function TileIds(ls: Layers): set<nat>
  {
    set id | id in ls && ls[id].Tile?
  }

  lemma NewMarkersAppend(locs: seq<Location>, base: nat, i: nat)
    requires i < |locs|
    ensures NewMarkers(locs[..i + 1], base) == NewMarkers(locs[..i], base)[base + i := CircleMarkerFor(locs[i])]
  {
    assert locs[..i + 1][..i] == locs[..i];
  }

  /**
   * The layers after one effect run over `before`, whose identities are all
   * below `base`: the fresh default tile layer `base`, every old layer except
   * those passing `instanceof L.Marker`, and the new circle markers numbered
   * from `base + 5` (identities `base + 1 .. base + 3` are the other three
   * fresh tile layers and `base + 4` the listener).
   */
  function EffectLayers(before: Layers, locs: seq<Location>, base: nat): Layers
  {
    WithoutMarkers(before[base := Tile(DefaultTheme)]) + NewMarkers(locs, base + 5)
  }

  lemma EffectLayersUnfold(before: Layers, withTile: Layers, locs: seq<Location>, base: nat, markerBase: nat)
    requires withTile == before[base := Tile(DefaultTheme)] && markerBase == base + 5
    ensures WithoutMarkers(withTile) + NewMarkers(locs, markerBase) == EffectLayers(before, locs, base)
  {
  }

  /**
   * What one effect run keeps, removes and adds: the default tile is always
   * added (its fresh object is never already on the map), every non-marker
   * layer survives (circle markers from earlier runs included), every plain
   * marker is gone, and the i-th location has its circle marker.
   */
  lemma EffectLayersSpec(before: Layers, locs: seq<Location>, base: nat)
    requires forall id :: id in before ==> id < base
    ensures base in EffectLayers(before, locs, base) && EffectLayers(before, locs, base)[base] == Tile(DefaultTheme)
    ensures forall id :: id in before && !IsLeafletMarker(before[id]) ==>
      id in EffectLayers(before, locs, base) && EffectLayers(before, locs, base)[id] == before[id]
  {
    NewMarkersKeys(locs, base + 5);
  }

  /** Nothing else is present: no plain marker survives, and no other identity appears. */
  lemma EffectLeavesNoMarker(before: Layers, locs: seq<Location>, base: nat)
    ensures forall id :: id in EffectLayers(before, locs, base) ==> !IsLeafletMarker(EffectLayers(before, locs, base)[id])
    ensures forall id :: id in EffectLayers(before, locs, base) ==>
      id in before || id == base || base + 5 <= id < base + 5 + |locs|
  {
    NewMarkersKeys(locs, base + 5);
    NewMarkersNoMarker(locs, base + 5);
  }

  /** Every identity after an effect run is below the next fresh one. */
  lemma EffectLayersBelow(before: Layers, locs: seq<Location>, base: nat)
    requires forall id :: id in before ==> id < base
    ensures forall id :: id in EffectLayers(before, locs, base) ==> id < base + 5 + |locs|
  {
    NewMarkersKeys(locs, base + 5);
  }

  /** The i-th location's circle marker is the layer with identity `base + 5 + i`. */
  lemma EffectPlacesMarker(before: Layers, locs: seq<Location>, base: nat, i: nat)
    requires i < |locs|
    ensures base + 5 + i in EffectLayers(before, locs, base)
    ensures EffectLayers(before, locs, base)[base + 5 + i] == CircleMarkerFor(locs[i])
  {
    NewMarkersKeys(locs, base + 5);
    NewMarkersAt(locs, base + 5);
  }

  /**
   * How one effect run changes the number of circle markers and of tile
   * layers: every earlier circle marker is still there and `|locs|` new ones
   * are added, and exactly one more tile layer is present.
   */
  lemma EffectCounts(before: Layers, locs: seq<Location>, base: nat)
    requires forall id :: id in before ==> id < base
    ensures CircleMarkerIds(EffectLayers(before, locs, base)) == CircleMarkerIds(before) + NewMarkers(locs, base + 5).Keys
    ensures |CircleMarkerIds(EffectLayers(before, locs, base))| == |CircleMarkerIds(before)| + |locs|
    ensures TileIds(EffectLayers(before, locs, base)) == TileIds(before) + {base}
    ensures |TileIds(EffectLayers(before, locs, base))| == |TileIds(before)| + 1
  {
    EffectCircleMarkerIds(before, locs, base);
    EffectCircleMarkerCount(before, locs, base);
    EffectTileIds(before, locs, base);
    EffectTileCount(before, locs, base);
  }

  lemma EffectCircleMarkerCount(before: Layers, locs: seq<Location>, base: nat)
    requires forall id :: id in before ==> id < base
    ensures |CircleMarkerIds(EffectLayers(before, locs, base))| == |CircleMarkerIds(before)| + |locs|
  {
    NewMarkersKeys(locs, base + 5);
    NewMarkersCount(locs, base + 5);
    EffectCircleMarkerIds(before, locs, base);
    var added := NewMarkers(locs, base + 5).Keys;
    assert CircleMarkerIds(before) !! added;
    DisjointUnionSize(CircleMarkerIds(before), added);
  }

  lemma EffectTileCount(before: Layers, locs: seq<Location>, base: nat)
    requires forall id :: id in before ==> id < base
    ensures |TileIds(EffectLayers(before, locs, base))| == |TileIds(before)| + 1
  {
    EffectTileIds(before, locs, base);
    DisjointUnionSize(TileIds(before), {base});
  }

  /** The first effect run, on a map without layers, draws one circle marker per location and one tile layer. */
  lemma FirstEffectCounts(locs: seq<Location>)
    ensures |CircleMarkerIds(EffectLayers(map[], locs, 0))| == |locs|
    ensures |TileIds(EffectLayers(map[], locs, 0))| == 1
  {
    assert CircleMarkerIds(map[]) == {} && TileIds(map[]) == {};
    EffectCircleMarkerCount(map[], locs, 0);
    EffectTileCount(map[], locs, 0);
  }

  /**
   * Two effect runs over the same one-location list, from a map without
   * layers: two circle markers and two default tile layers.
   */
  lemma RerunCircleMarkers(loc: Location)
    ensures |CircleMarkerIds(EffectLayers(EffectLayers(map[], [loc], 0), [loc], 6))| == 2
  {
    var first := EffectLayers(map[], [loc], 0);
    FirstEffectCounts([loc]);
    EffectLayersBelow(map[], [loc], 0);
    EffectCircleMarkerCount(first, [loc], 6);
  }

  lemma RerunTiles(loc: Location)
    ensures |TileIds(EffectLayers(EffectLayers(map[], [loc], 0), [loc], 6))| == 2
    ensures forall id :: id in TileIds(EffectLayers(EffectLayers(map[], [loc], 0), [loc], 6)) ==>
      EffectLayers(EffectLayers(map[], [loc], 0), [loc], 6)[id] == Tile(DefaultTheme)
  {
    var first := EffectLayers(map[], [loc], 0);
    var second := EffectLayers(first, [loc], 6);
    FirstEffectCounts([loc]);
    EffectLayersBelow(map[], [loc], 0);
    EffectTileCount(first, [loc], 6);
    assert TileIds(map[]) == {};
    EffectTileIds(map[], [loc], 0);
    EffectTileIds(first, [loc], 6);
    EffectLayersSpec(map[], [loc], 0);
    EffectLayersSpec(first, [loc], 6);
    assert TileIds(second) == {0, 6};
  }

  lemma EffectCircleMarkerIds(before: Layers, locs: seq<Location>, base: nat)
    requires forall id :: id in before ==> id < base
    ensures CircleMarkerIds(EffectLayers(before, locs, base)) == CircleMarkerIds(before) + NewMarkers(locs, base + 5).Keys
  {
    NewMarkersKeys(locs, base + 5);
    NewMarkersNoMarker(locs, base + 5);
    assert EffectLayers(before, locs, base) ==
      WithoutMarkers(before[base := Tile(DefaultTheme)]) + NewMarkers(locs, base + 5);
  }

  lemma EffectTileIds(before: Layers, locs: seq<Location>, base: nat)
    requires forall id :: id in before ==> id < base
    ensures TileIds(EffectLayers(before, locs, base)) == TileIds(before) + {base}
  {
    NewMarkersKeys(locs, base + 5);
    NewMarkersNoMarker(locs, base + 5);
    assert EffectLayers(before, locs, base) ==
      WithoutMarkers(before[base := Tile(DefaultTheme)]) + NewMarkers(locs, base + 5);
  }

  lemma DisjointUnionSize(a: set<nat>, b: set<nat>)
    requires a !! b
    ensures |a + b| == |a| + |b|
  {
  }

  /**
   * The layers left by the theme-change handler whose four tile layer objects
   * start at identity `tileBase`: every layer removed, then only the selected
   * theme's tile layer (a key outside the registry makes `themes[key].addTo`
   * throw, leaving no layer at all).
   */
  function ThemeLayers(tileBase: nat, key: string): (r: Layers)
    ensures ThemeOfKey(key).None? ==> r == map[]
    ensures forall t :: ThemeKey(t) == key ==> r == map[tileBase + TileOffset(t) := Tile(t)]
  {
    match ThemeOfKey(key)
    case Some(t) => map[tileBase + TileOffset(t) := Tile(t)]
    case None => map[]
  }

  /** A theme change to a registered key leaves no marker of either kind and exactly one tile layer, of that theme. */
  lemma ThemeChangeDropsAllMarkers(tileBase: nat, t: Theme)
    ensures CircleMarkerIds(ThemeLayers(tileBase, ThemeKey(t))) == {}
    ensures TileIds(ThemeLayers(tileBase, ThemeKey(t))) == {tileBase + TileOffset(t)}
    ensures ThemeLayers(tileBase, ThemeKey(t))[tileBase + TileOffset(t)] == Tile(t)
    ensures |ThemeLayers(tileBase, ThemeKey(t))| == 1
  {
    var r := ThemeLayers(tileBase, ThemeKey(t));
    assert r.Keys == {tileBase + TileOffset(t)};
  }

  /** The `handleThemeChange` closure of one effect run: its identity and where its four tile objects start. */
  datatype Handler = Handler(id: nat, tileBase: nat)

  /** `removeEventListener`: drop every registration of `h` and keep the others. */
  function WithoutListener(ls: seq<Handler>, h: Handler): (r: seq<Handler>)
    ensures forall g :: g in r <==> g in ls && g != h
    ensures |r| <= |ls|
    ensures h !in ls ==> r == ls
  {
    if ls == [] then []
    else if ls[0] == h then WithoutListener(ls[1..], h)
    else [ls[0]] + WithoutListener(ls[1..], h)
  }

  /** The Leaflet map instance, reduced to its creation options and its layers. */
  class LeafletMap {
    const center: LatLng
    const zoom: nat
    const zoomControl: bool
    var layers: Layers

    /** `L.map('map', options)`: a new map with the given options and no layers. */
    constructor (center: LatLng, zoom: nat, zoomControl: bool)
      ensures this.center == center && this.zoom == zoom && this.zoomControl == zoomControl
      ensures layers == map[]
    {
      this.center := center;
      this.zoom := zoom;
      this.zoomControl := zoomControl;
      layers := map[];
    }

    /** `map.hasLayer(layer)`. */
    method HasLayer(id: nat) returns (present: bool)
      ensures present <==> id in layers
    {
      present := id in layers;
    }

    /** `layer.addTo(map)`: adding a layer object already on the map does nothing. */
    method AddLayer(id: nat, k: Kind)
      modifies this
      ensures layers == if id in old(layers) then old(layers) else old(layers)[id := k]
    {
      if id !in layers {
        layers := layers[id := k];
      }
    }

    /** `map.removeLayer(layer)`. */
    method RemoveLayer(id: nat)
      modifies this
      ensures layers == old(layers) - {id}
    {
      layers := layers - {id};
    }
  }

  /** The layers of `snapshot` still present while `eachLayer` has `pending` left to visit. */
  ghost function MarkerClearProgress(snapshot: Layers, pending: set<nat>): Layers
  {
    map id | id in snapshot && (id in pending || !IsLeafletMarker(snapshot[id])) :: snapshot[id]
  }

  /** The first `eachLayer` loop of the effect: remove each layer that passes `instanceof L.Marker`. */
  method ClearMarkers(m: LeafletMap)
    modifies m
    ensures m.layers == WithoutMarkers(old(m.layers))
  {
    ghost var snapshot := m.layers;
    var pending := m.layers.Keys;
    while pending != {}
      invariant pending <= snapshot.Keys
      invariant m.layers == MarkerClearProgress(snapshot, pending)
      decreases pending
    {
      var id :| id in pending;
      if IsLeafletMarker(m.layers[id]) {
        m.RemoveLayer(id);
      }
      pending := pending - {id};
    }
    assert m.layers == WithoutMarkers(snapshot);
  }

  /** The `eachLayer` loop of `handleThemeChange`: remove every layer. */
  method ClearAllLayers(m: LeafletMap)
    modifies m
    ensures m.layers == map[]
  {
    ghost var snapshot := m.layers;
    var pending := m.layers.Keys;
    while pending != {}
      invariant pending <= snapshot.Keys
      invariant m.layers == map id | id in pending :: snapshot[id]
      decreases pending
    {
      var id :| id in pending;
      m.RemoveLayer(id);
      pending := pending - {id};
    }
  }

  lemma UnionUpdate(a: Layers, b: Layers, k: nat, v: Kind)
    ensures (a + b)[k := v] == a + b[k := v]
  {
  }

  /** The `locations.forEach` loop of the effect: one circle marker per location, in list order. */
  method AddCircleMarkers(m: LeafletMap, locations: seq<Location>, base: nat)
    requires forall id :: id in m.layers ==> id < base
    modifies m
    ensures m.layers == old(m.layers) + NewMarkers(locations, base)
  {
    ghost var kept := m.layers;
    for i := 0 to |locations|
      invariant m.layers == kept + NewMarkers(locations[..i], base)
    {
      ghost var added := NewMarkers(locations[..i], base);
      NewMarkersKeys(locations[..i], base);
      assert base + i !in kept + added;
      m.AddLayer(base + i, CircleMarkerFor(locations[i]));
      NewMarkersAppend(locations, base, i);
      UnionUpdate(kept, added, base + i, CircleMarkerFor(locations[i]));
    }
    assert locations[..|locations|] == locations;
  }

  /** `if (!map.hasLayer(defaultLayer)) defaultLayer.addTo(map)` for a tile object not yet on the map. */
  method AddDefaultTile(m: LeafletMap, id: nat)
    requires forall other :: other in m.layers ==> other < id
    modifies m
    ensures m.layers == old(m.layers)[id := Tile(DefaultTheme)]
  {
    var present := m.HasLayer(id);
    if !present {
      m.AddLayer(id, Tile(DefaultTheme));
    }
  }

  /**
   * The marker refresh of the effect: the clear loop, then the `forEach`
   * loop, numbering the new circle markers from `base`.
   */
  method RefreshMarkers(m: LeafletMap, locations: seq<Location>, base: nat)
    requires forall id :: id in m.layers ==> id < base
    modifies m
    ensures m.layers == WithoutMarkers(old(m.layers)) + NewMarkers(locations, base)
  {
    ClearMarkers(m);
    AddCircleMarkers(m, locations, base);
  }

  /**
   * The map side of one effect run, with the identities `base` .. `base + 3`
   * for the fresh tile objects (the default one first), `base + 4` left for
   * the theme listener and `base + 5` onwards for the new circle markers.
   */
  method DrawEffect(m: LeafletMap, locations: seq<Location>, base: nat)
    requires forall id :: id in m.layers ==> id < base
    modifies m
    ensures m.layers == EffectLayers(old(m.layers), locations, base)
  {
    ghost var before := m.layers;
    AddDefaultTile(m, base + TileOffset(DefaultTheme));
    ghost var withTile := m.layers;
    RefreshMarkers(m, locations, base + 5);
    EffectLayersUnfold(before, withTile, locations, base, base + 5);
  }

  /**
   * The `MapStep` component: `mapRef`, the listeners registered on the theme
   * selector, the cleanup pending from the last effect run, and the source of
   * fresh object identities.
   */
  class MapStep {
    var mapRef: LeafletMap?
    var listeners: seq<Handler>
    var cleanup: Option<Handler>
    var nextId: nat

    /** Every identity in use is below `nextId`; the only listener is the one the pending cleanup removes. */
    ghost predicate Valid()
      reads this, mapRef
    {
      && (mapRef != null ==> forall id :: id in mapRef.layers ==> id < nextId)
      && (cleanup.Some? ==>
            && mapRef != null
            && cleanup.value.tileBase + 3 < nextId)
      && listeners == (if cleanup.Some? then [cleanup.value] else [])
    }

    /** The layers of the map, or none before it exists. */
    ghost function CurrentLayers(): Layers
      reads this, mapRef
    {
      if mapRef == null then map[] else mapRef.layers
    }

    /** Before the first effect run: no map, no listener. */
    constructor ()
      ensures Valid() && mapRef == null && listeners == [] && cleanup == None && nextId == 0
    {
      mapRef := null;
      listeners := [];
      cleanup := None;
      nextId := 0;
    }

    /** At most one theme handler is ever registered. */
    lemma AtMostOneListener()
      requires Valid()
      ensures |listeners| <= 1
      ensures cleanup.Some? ==> listeners == [cleanup.value]
    {
    }

    /** The cleanup returned by the last effect run: remove exactly its listener. */
    method Cleanup()
      requires Valid()
      modifies this
      ensures Valid()
      ensures mapRef == old(mapRef) && nextId == old(nextId)
      ensures listeners == [] && cleanup == None
    {
      if cleanup.Some? {
        var h := cleanup.value;
        listeners := WithoutListener(listeners, h);
        cleanup := None;
      }
    }

    /** Unmounting runs the pending cleanup; the map itself is never destroyed. */
    method Unmount()
      requires Valid()
      modifies this
      ensures Valid()
      ensures mapRef == old(mapRef) && listeners == []
    {
      Cleanup();
    }

    /**
     * One run of the effect on a change of `locations` (the previous run's
     * cleanup first, as React does): create the map only if none exists, add
     * the fresh default tile layer (never already present), register the new
     * theme listener, clear the layers that pass `instanceof L.Marker`, then
     * append one circle marker per location.
     */
    method RunEffect(locations: seq<Location>)
      requires Valid()
      modifies this, mapRef
      ensures Valid()
      ensures mapRef != null
      ensures old(mapRef) != null ==> mapRef == old(mapRef)
      ensures old(mapRef) == null ==>
        fresh(mapRef) && mapRef.center == LatLng(0.0, 0.0) && mapRef.zoom == 2 && !mapRef.zoomControl
      ensures mapRef.layers == EffectLayers(old(CurrentLayers()), locations, old(nextId))
      ensures cleanup == Some(Handler(old(nextId) + 4, old(nextId)))
      ensures listeners == [cleanup.value]
      ensures nextId == old(nextId) + 5 + |locations|
    {
      Cleanup();
      if mapRef == null {
        mapRef := new LeafletMap(LatLng(0.0, 0.0), 2, false);
      }
      var m := mapRef;
      var base := nextId;
      ghost var before := m.layers;
      // the layer work and the listener registration touch disjoint state
      DrawEffect(m, locations, base);
      EffectLayersBelow(before, locations, base);

      var handler := Handler(base + 4, base);
      var registered := listeners;
      if handler !in registered {
        registered := registered + [handler];
      }
      listeners, cleanup, nextId := registered, Some(handler), base + 5 + |locations|;
    }

    /**
     * A change event on the theme selector: each registered handler clears
     * every layer and adds its own tile layer for the selected key. With no
     * listener registered nothing happens.
     */
    method ThemeChange(key: string)
      requires Valid()
      modifies mapRef
      ensures Valid()
      ensures listeners == [] ==> CurrentLayers() == old(CurrentLayers())
      ensures listeners != [] ==> mapRef.layers == ThemeLayers(listeners[0].tileBase, key)
    {
      if listeners != [] {
        var h := listeners[0];
        var m := mapRef;
        ClearAllLayers(m);
        match ThemeOfKey(key) {
          case Some(t) => m.AddLayer(h.tileBase + TileOffset(t), Tile(t));
          case None =>
        }
      }
    }
  }

  /**
   * A rendered, non-empty location list followed by a theme change: the
   * markers are all there after the effect and none is left afterwards.
   */
  method ThemeChangeRegression(locations: seq<Location>, key: string) returns (before: nat, after: nat)
    requires |locations| > 0 && ThemeOfKey(key).Some?
    ensures before == |locations| && after == 0
  {
    var view := new MapStep();
    view.RunEffect(locations);
    var drawn := view.mapRef.layers;
    FirstEffectCounts(locations);
    before := |CircleMarkerIds(drawn)|;
    view.ThemeChange(key);
    var themed := view.mapRef.layers;
    ThemeChangeDropsAllMarkers(0, ThemeOfKey(key).value);
    after := |CircleMarkerIds(themed)|;
  }

  /**
   * Two effect runs over the same one-location list: because the clear loop
   * only removes plain markers, the first run's circle marker survives next to
   * the second's, and a second default tile layer is added too.
   */
  method RerunKeepsEarlierCircleMarkers(loc: Location) returns (markers: nat, tiles: nat)
    ensures markers == 2 && tiles == 2
  {
    var view := new MapStep();
    view.RunEffect([loc]);
    view.RunEffect([loc]);
    var second := view.mapRef.layers;
    RerunCircleMarkers(loc);
    RerunTiles(loc);
    markers := |CircleMarkerIds(second)|;
    tiles := |TileIds(second)|;
  }
}

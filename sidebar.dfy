/**
 * The sidebar (`initSidebar`): one row per entity; activating a row centres
 * the map on the entity and opens the popup of the first map layer found at
 * exactly the entity's coordinates.
 */
module SidebarList {
  import opened Wrappers
  import opened Dataset
  import opened Dom

  datatype LatLng = LatLng(lat: Coord, lng: Coord)

  /**
   * A layer of the map, in the order `for (const id in map._layers)` visits
   * them; `position` is what `getLatLng()` returns, None for a layer that has
   * no such method (the tile layer).
   */
  datatype Layer = Layer(position: Option<LatLng>)

  /** A map view: its centre and its zoom level. */
  datatype View = View(center: LatLng, zoom: nat)

  /** What a row click does to the map: the view it sets, and the layer whose popup it opens, if any. */
  datatype MapAction = MapAction(view: View, popup: Option<nat>)

  /** The zoom a row click sets: `map.setView([p.lat, p.lon], 6)`. */
  const RowZoom: nat := 6

  /** The scan's test: `lay.getLatLng && lay.getLatLng().lat === lat && lay.getLatLng().lng === lon`. */
  predicate IsAt(l: Layer, lat: Coord, lon: Coord) {
    l.position == Some(LatLng(lat, lon))
  }

  /** The first layer at exactly `(lat, lon)`, or None when no layer is there. */
  function MarkerAt(layers: seq<Layer>, lat: Coord, lon: Coord): (r: Option<nat>)
    ensures r.Some? ==> r.value < |layers| && IsAt(layers[r.value], lat, lon)
    ensures r.Some? ==> forall j :: 0 <= j < r.value ==> !IsAt(layers[j], lat, lon)
    ensures r.None? ==> forall j :: 0 <= j < |layers| ==> !IsAt(layers[j], lat, lon)
  {
    if layers == [] then None
    else if IsAt(layers[0], lat, lon) then Some(0)
    else match MarkerAt(layers[1..], lat, lon)
      case None => None
      case Some(k) => Some(k + 1)
  }

  /** The `for…in` scan of the click handler, which stops at the first match. */
  method FindMarker(layers: seq<Layer>, lat: Coord, lon: Coord) returns (k: Option<nat>)
    ensures k == MarkerAt(layers, lat, lon)
  {
    k := None;
    for i := 0 to |layers|
      invariant forall j :: 0 <= j < i ==> !IsAt(layers[j], lat, lon)
    {
      if IsAt(layers[i], lat, lon) {
        k := Some(i);
        break;
      }
    }
  }

  /** The marker `initMap` adds for an entity, at its coordinates. */
  function MarkerOf(p: Povo): Layer {
    Layer(Some(LatLng(p.lat, p.lon)))
  }

  /** Two entities at exactly the same coordinates. */
  predicate SameSpot(p: Povo, q: Povo) {
    p.lat == q.lat && p.lon == q.lon
  }

  /** One marker per entity, in dataset order. */
  function Markers(povos: seq<Povo>): (r: seq<Layer>)
    ensures |r| == |povos|
    ensures forall j :: 0 <= j < |povos| ==> r[j] == MarkerOf(povos[j])
  {
    if povos == [] then [] else [MarkerOf(povos[0])] + Markers(povos[1..])
  }

  /** The layers `initMap` creates, in creation order: the tile layer, then the markers. */
  function MapLayers(povos: seq<Povo>): (r: seq<Layer>)
    ensures |r| == 1 + |povos| && r[0].position.None?
    ensures forall j :: 0 <= j < |povos| ==> r[j + 1] == MarkerOf(povos[j])
  {
    [Layer(None)] + Markers(povos)
  }

  /** Where the entities' markers sit in the layer list, whatever was added after them. */
  lemma MapLayersAt(povos: seq<Povo>, later: seq<Layer>)
    ensures |MapLayers(povos) + later| == 1 + |povos| + |later|
    ensures (MapLayers(povos) + later)[0].position.None?
    ensures forall j :: 0 <= j < |povos| ==> (MapLayers(povos) + later)[j + 1] == MarkerOf(povos[j])
  {
  }

  /**
   * On the map `initMap` built, with any layers added after it (`later`),
   * clicking the row of entity `i` opens the marker of the first entity at
   * the same coordinates; that is entity `i`'s own marker exactly when no
   * earlier entity shares its coordinates.
   */
  lemma OwnMarker(povos: seq<Povo>, i: nat, later: seq<Layer>)
    requires i < |povos|
    ensures var k := MarkerAt(MapLayers(povos) + later, povos[i].lat, povos[i].lon);
      && k.Some? && 1 <= k.value <= i + 1
      && SameSpot(povos[k.value - 1], povos[i])
      && (forall j :: 0 <= j < k.value - 1 ==> !SameSpot(povos[j], povos[i]))
    ensures (forall j :: 0 <= j < i ==> !SameSpot(povos[j], povos[i]))
      ==> MarkerAt(MapLayers(povos) + later, povos[i].lat, povos[i].lon) == Some(i + 1)
  {
    var p := povos[i];
    var layers := MapLayers(povos) + later;
    MapLayersAt(povos, later);
    assert IsAt(layers[i + 1], p.lat, p.lon);
    var k := MarkerAt(layers, p.lat, p.lon);
    assert k.Some? && 1 <= k.value <= i + 1;
    assert layers[k.value] == MarkerOf(povos[k.value - 1]);
    forall j | 0 <= j < k.value - 1
      ensures !SameSpot(povos[j], p)
    {
      assert layers[j + 1] == MarkerOf(povos[j]);
    }
  }

  /** A row's image source: the first image when it is truthy, else the empty string. */
  function RowSource(p: Povo): (src: string)
    ensures src == "" <==> FirstImage(p).None?
    ensures FirstImage(p).Some? ==> src == Urls(p)[0]
  {
    match FirstImage(p)
    case Some(u) => u
    case None => ""
  }

  /** The rows `initSidebar` appends: every entity, in dataset order. */
  function Rows(povos: seq<Povo>): (r: seq<Picture>)
    ensures |r| == |povos|
    ensures forall i :: 0 <= i < |r| ==> r[i].owner == povos[i] && r[i].src == RowSource(povos[i])
  {
    PicturesOf(povos, RowSource)
  }

  /** The `#people-list` element: one row per entity, each showing the entity's image. */
  class Sidebar {
    var rows: seq<Picture>
    const stats: Stats?

    constructor (stats: Stats?)
      ensures rows == [] && this.stats == stats
    {
      rows := [];
      this.stats := stats;
    }

    /** `initSidebar(povos, map)`: appends the rows; nothing already listed is removed. */
    method Init(povos: seq<Povo>)
      modifies this
      ensures rows == old(rows) + Rows(povos)
    {
      for i := 0 to |povos|
        invariant rows == old(rows) + Rows(povos)[..i]
      {
        var p := povos[i];
        rows := rows + [Picture(RowSource(p), p)];
      }
    }

    /** The click handler of row `i` over the map's current layers. */
    method Click(i: nat, layers: seq<Layer>) returns (a: MapAction)
      requires i < |rows|
      ensures a.view == View(LatLng(rows[i].owner.lat, rows[i].owner.lon), RowZoom)
      ensures a.popup == MarkerAt(layers, rows[i].owner.lat, rows[i].owner.lon)
    {
      var p := rows[i].owner;
      var view := View(LatLng(p.lat, p.lon), RowZoom);
      var popup := FindMarker(layers, p.lat, p.lon);
      a := MapAction(view, popup);
    }

    /** The `keydown` handler of row `i`: Enter or Space is a click, any other key does nothing. */
    method KeyDown(i: nat, key: string, layers: seq<Layer>) returns (a: Option<MapAction>)
      requires i < |rows|
      ensures a.Some? <==> IsActivationKey(key)
      ensures a.Some? ==> a.value.view == View(LatLng(rows[i].owner.lat, rows[i].owner.lon), RowZoom)
      ensures a.Some? ==> a.value.popup == MarkerAt(layers, rows[i].owner.lat, rows[i].owner.lon)
    {
      if IsActivationKey(key) {
        var clicked := Click(i, layers);
        a := Some(clicked);
      } else {
        a := None;
      }
    }

    /** The `error` handler of row `k`'s image: fall back to the placeholder and count a failure. */
    method OnError(k: nat)
      requires k < |rows|
      modifies this, stats
      ensures rows == WithPlaceholder(old(rows), k)
      ensures stats != null ==> stats.imagesFailed == old(stats.imagesFailed) + 1
      ensures stats != null ==> stats.imagesLoaded == old(stats.imagesLoaded)
    {
      rows := WithPlaceholder(rows, k);
      if stats != null {
        stats.ImageFailed();
      }
    }

    /** The `load` handler of a row's image: count a loaded image. */
    method OnLoad()
      modifies stats
      ensures stats != null ==> stats.imagesLoaded == old(stats.imagesLoaded) + 1
      ensures stats != null ==> stats.imagesFailed == old(stats.imagesFailed)
    {
      if stats != null {
        stats.ImageLoaded();
      }
    }
  }
}

/**
 * The part of a Mapbox map the route overlays touch: named sources holding
 * GeoJSON, and layers drawing one source each. Only the behaviour the
 * overlay code relies on is kept: `addSource` throws on an id already in
 * use, `addLayer` needs a fresh id and an existing source, `removeLayer`
 * needs the layer, and `removeSource` needs the source and no layer still
 * drawing it. Each of these is a precondition here, so every call site has
 * to show that its guard holds. Every change is also logged, in order.
 */
module Surface {
  import opened Types

  /** The fixed ids of the active route's layers and sources. */
  datatype Name =
    | FlyingRoute    // "flying-route"
    | FlyingRouteBg  // "flying-route-bg"
    | DrivingRoute   // "driving-route"
    | PointMarkers   // "point-markers"

  /** The layer ids the overlay code uses: fixed names, and the three per public route. */
  datatype LayerId =
    | NamedLayer(name: Name)
    | PublicMarkersLayer(index: nat)
    | PublicLineLayer(index: nat)
    | PublicBgLayer(index: nat)
  {
    predicate IsPublic()
    {
      !NamedLayer?
    }
  }

  /** The source ids: fixed names, and the two per public route. */
  datatype SourceId =
    | NamedSource(name: Name)
    | PublicLineSource(index: nat)
    | PublicMarkersSource(index: nat)
  {
    predicate IsPublic()
    {
      !NamedSource?
    }
  }

  /** What a source holds: a line, or the start and end points of a route. */
  datatype SourceData = LineString(coords: seq<Point>) | Endpoints(start: Point, end: Point)

  /**
   * The moving stops of a `line-gradient`: the line is opaque up to
   * `opaqueUntil` (after the fixed stop at 0) and transparent from `clearFrom`.
   */
  datatype Gradient = Gradient(opaqueUntil: real, clearFrom: real)

  /** A layer: the source it draws, and its line gradient if it has one. */
  datatype Layer = Layer(source: SourceId, gradient: Option<Gradient>)

  /** One change made to the map. */
  datatype Op =
    | AddedSource(sourceId: SourceId)
    | AddedLayer(layerId: LayerId)
    | RemovedLayer(layerId: LayerId)
    | RemovedSource(sourceId: SourceId)
    | Repainted(layerId: LayerId)

  /**
   * The source a layer of the overlay code always draws: a public route's
   * markers layer its markers source, its line and background layers its line
   * source; the active route's background track the `flying-route` source;
   * every other named layer the source of the same name.
   */
  function ExpectedSource(id: LayerId): (sid: SourceId)
    ensures sid.IsPublic() <==> id.IsPublic()
    ensures sid.IsPublic() ==> sid.index == id.index
  {
    match id
    case NamedLayer(name) => NamedSource(if name == FlyingRouteBg then FlyingRoute else name)
    case PublicMarkersLayer(i) => PublicMarkersSource(i)
    case PublicLineLayer(i) => PublicLineSource(i)
    case PublicBgLayer(i) => PublicLineSource(i)
  }

  /** The map's overlay state as a value, with the log of changes so far. */
  datatype Scene = Scene(layers: map<LayerId, Layer>, sources: map<SourceId, SourceData>, ops: seq<Op>)
  {
    /** Every layer draws a source that exists. */
    predicate Valid()
    {
      forall id :: id in layers ==> layers[id].source in sources
    }

    /** Valid, and every layer draws the source its id calls for. */
    predicate Wellformed()
    {
      Valid() && forall id :: id in layers ==> layers[id].source == ExpectedSource(id)
    }

    /** No layer draws `sid`. */
    predicate Unused(sid: SourceId)
    {
      forall id :: id in layers ==> layers[id].source != sid
    }

    function AddSource(id: SourceId, data: SourceData): (r: Scene)
      requires id !in sources
      ensures Valid() ==> r.Valid()
      ensures Wellformed() ==> r.Wellformed()
      ensures id in r.sources && r.layers == layers
    {
      Scene(layers, sources[id := data], ops + [AddedSource(id)])
    }

    function AddLayer(id: LayerId, layer: Layer): (r: Scene)
      requires id !in layers && layer.source in sources
      ensures Valid() ==> r.Valid()
      ensures Wellformed() && layer.source == ExpectedSource(id) ==> r.Wellformed()
      ensures id in r.layers && r.sources == sources
    {
      Scene(layers[id := layer], sources, ops + [AddedLayer(id)])
    }

    function RemoveLayer(id: LayerId): (r: Scene)
      requires id in layers
      ensures Valid() ==> r.Valid()
      ensures Wellformed() ==> r.Wellformed()
      ensures id !in r.layers && r.sources == sources
    {
      Scene(layers - {id}, sources, ops + [RemovedLayer(id)])
    }

    function RemoveSource(id: SourceId): (r: Scene)
      requires id in sources && Unused(id)
      ensures Valid() ==> r.Valid()
      ensures Wellformed() ==> r.Wellformed()
      ensures id !in r.sources && r.layers == layers
    {
      Scene(layers, sources - {id}, ops + [RemovedSource(id)])
    }

    function Repaint(id: LayerId, g: Gradient): (r: Scene)
      requires id in layers
      ensures Valid() ==> r.Valid()
      ensures Wellformed() ==> r.Wellformed()
      ensures r.layers.Keys == layers.Keys && r.sources == sources
    {
      Scene(layers[id := layers[id].(gradient := Some(g))], sources, ops + [Repainted(id)])
    }

    /** `if (map.getLayer(id)) map.removeLayer(id)`. */
    function RemoveLayerIfPresent(id: LayerId): (r: Scene)
      ensures Valid() ==> r.Valid()
      ensures Wellformed() ==> r.Wellformed()
      ensures id !in r.layers && r.sources == sources
      ensures forall other :: other != id ==> (other in r.layers <==> other in layers)
      ensures forall other :: other in r.layers ==> r.layers[other] == layers[other]
      ensures r.ops == ops + (if id in layers then [RemovedLayer(id)] else [])
    {
      if id in layers then RemoveLayer(id) else this
    }

    /** `if (map.getSource(id)) map.removeSource(id)`. */
    function RemoveSourceIfPresent(id: SourceId): (r: Scene)
      requires Unused(id)
      ensures Valid() ==> r.Valid()
      ensures Wellformed() ==> r.Wellformed()
      ensures id !in r.sources && r.layers == layers
      ensures forall other :: other != id ==> (other in r.sources <==> other in sources)
      ensures forall other :: other in r.sources ==> r.sources[other] == sources[other]
      ensures r.ops == ops + (if id in sources then [RemovedSource(id)] else [])
    {
      if id in sources then RemoveSource(id) else this
    }
  }

  /**
   * Removing each listed layer that is present, in list order: exactly the
   * listed layers are gone, the others keep their definitions, no source is
   * touched, and the log grows by layer removals only.
   */
  function RemoveLayersIfPresent(s: Scene, ids: seq<LayerId>): (r: Scene)
    ensures s.Valid() ==> r.Valid()
    ensures s.Wellformed() ==> r.Wellformed()
    ensures forall id :: id in r.layers <==> id in s.layers && id !in ids
    ensures forall id :: id in r.layers ==> r.layers[id] == s.layers[id]
    ensures r.sources == s.sources
    ensures s.ops <= r.ops
    ensures forall k :: |s.ops| <= k < |r.ops| ==> r.ops[k].RemovedLayer? && r.ops[k].layerId in ids
    decreases |ids|
  {
    if ids == [] then s
    else RemoveLayersIfPresent(s, ids[..|ids| - 1]).RemoveLayerIfPresent(ids[|ids| - 1])
  }

  /**
   * Removing each listed source that is present, in list order, when no
   * layer draws any of them: exactly the listed sources are gone, no layer is
   * touched, and the log grows by source removals only.
   */
  function RemoveSourcesIfPresent(s: Scene, ids: seq<SourceId>): (r: Scene)
    requires forall id :: id in ids ==> s.Unused(id)
    ensures s.Valid() ==> r.Valid()
    ensures s.Wellformed() ==> r.Wellformed()
    ensures forall id :: id in r.sources <==> id in s.sources && id !in ids
    ensures forall id :: id in r.sources ==> r.sources[id] == s.sources[id]
    ensures r.layers == s.layers
    ensures s.ops <= r.ops
    ensures forall k :: |s.ops| <= k < |r.ops| ==> r.ops[k].RemovedSource? && r.ops[k].sourceId in ids
    decreases |ids|
  {
    if ids == [] then s
    else
      var r := RemoveSourcesIfPresent(s, ids[..|ids| - 1]);
      assert s.Unused(ids[|ids| - 1]);
      r.RemoveSourceIfPresent(ids[|ids| - 1])
  }

  /** The Mapbox map object, changed in place by the overlay code. */
  class RenderSurface {
    var scene: Scene

    constructor ()
      ensures scene == Scene(map[], map[], [])
    {
      scene := Scene(map[], map[], []);
    }

    predicate HasLayer(id: LayerId)
      reads this
    {
      id in scene.layers
    }

    predicate HasSource(id: SourceId)
      reads this
    {
      id in scene.sources
    }

    method AddSource(id: SourceId, data: SourceData)
      requires id !in scene.sources
      modifies this
      ensures scene == old(scene).AddSource(id, data)
    {
      scene := scene.AddSource(id, data);
    }

    method AddLayer(id: LayerId, layer: Layer)
      requires id !in scene.layers && layer.source in scene.sources
      modifies this
      ensures scene == old(scene).AddLayer(id, layer)
    {
      scene := scene.AddLayer(id, layer);
    }

    method RemoveLayer(id: LayerId)
      requires id in scene.layers
      modifies this
      ensures scene == old(scene).RemoveLayer(id)
    {
      scene := scene.RemoveLayer(id);
    }

    method RemoveSource(id: SourceId)
      requires id in scene.sources && scene.Unused(id)
      modifies this
      ensures scene == old(scene).RemoveSource(id)
    {
      scene := scene.RemoveSource(id);
    }

    /** `ids.forEach(id => { if (map.getLayer(id)) map.removeLayer(id) })`. */
    method ClearLayers(ids: seq<LayerId>)
      modifies this
      ensures scene == RemoveLayersIfPresent(old(scene), ids)
    {
      var s0 := scene;
      for k := 0 to |ids|
        invariant scene == RemoveLayersIfPresent(s0, ids[..k])
      {
        assert ids[..k + 1][..k] == ids[..k];
        if HasLayer(ids[k]) {
          RemoveLayer(ids[k]);
        }
      }
      assert ids[..|ids|] == ids;
    }

    /** `ids.forEach(id => { if (map.getSource(id)) map.removeSource(id) })`, when no layer draws them. */
    method ClearSources(ids: seq<SourceId>)
      requires forall id :: id in ids ==> scene.Unused(id)
      modifies this
      ensures scene == RemoveSourcesIfPresent(old(scene), ids)
    {
      var s0 := scene;
      for k := 0 to |ids|
        invariant scene == RemoveSourcesIfPresent(s0, ids[..k])
        invariant scene.layers == s0.layers
      {
        assert ids[..k + 1][..k] == ids[..k];
        assert s0.Unused(ids[k]);
        if HasSource(ids[k]) {
          RemoveSource(ids[k]);
        }
      }
      assert ids[..|ids|] == ids;
    }

    method SetGradient(id: LayerId, g: Gradient)
      requires id in scene.layers
      modifies this
      ensures scene == old(scene).Repaint(id, g)
    {
      scene := scene.Repaint(id, g);
    }
  }
}

/**
 * The layer stack of the router: resolved routes, the raw locations handed
 * to the transition engine, what the engine answers, and the candidate
 * lists that the navigate methods of the hash history build from the
 * current stack with `slice`, `map` and spread.
 */
module LayerStack {

  /** A resolved route; this core only reads its `fullPath`. */
  datatype Route = Route(fullPath: string)

  /** A location as the caller gives it: a path, or a location object this core never looks into. */
  datatype RawLocation = PathLocation(path: string) | LocationObject(id: nat)

  /**
   * What the transition engine does with a request: it commits a new stack
   * and calls the completion callback with `route`, or it aborts with `error`.
   */
  datatype Outcome = Resolved(stack: seq<Route>, route: Route) | Rejected(error: string)

  /**
   * What the caller of a navigate method observes: `onComplete(route)`,
   * `onAbort(error)`, or the `TypeError` thrown when the committed stack is
   * empty and `this.current[this.current.length - 1].fullPath` is read.
   */
  datatype Reply = Completed(route: Route) | Aborted(error: string) | Threw

  /** A relative index of `Array.prototype.slice` made absolute: negative counts from the end, clamped to `[0, len]`. */
  function SliceIndex(k: int, len: nat): (r: nat)
    ensures r <= len
    ensures 0 <= k <= len ==> r == k
    ensures k < 0 && 0 <= len + k ==> r == len + k
    ensures len + k < 0 ==> r == 0
    ensures k > len ==> r == len
  {
    if k < 0 then (if len + k < 0 then 0 else len + k)
    else if k < len then k else len
  }

  /** `s.slice(start, end)`. */
  function Slice<T>(s: seq<T>, start: int, end: int): (r: seq<T>)
    ensures 0 <= start <= end <= |s| ==> r == s[start..end]
    ensures |s| > 0 && start == 0 && end == -1 ==> r == s[..|s| - 1]
    ensures start >= |s| || end == 0 ==> r == []
  {
    var a := SliceIndex(start, |s|);
    var b := SliceIndex(end, |s|);
    if a < b then s[a..b] else []
  }

  /** `routes.map(r => r.fullPath)`, as the strings saved with a history entry. */
  function FullPaths(routes: seq<Route>): (r: seq<string>)
    ensures |r| == |routes|
    ensures forall j :: 0 <= j < |routes| ==> r[j] == routes[j].fullPath
  {
    seq(|routes|, j requires 0 <= j < |routes| => routes[j].fullPath)
  }

  /** Saved path strings as raw locations for the transition engine. */
  function PathLocations(paths: seq<string>): seq<RawLocation> {
    seq(|paths|, j requires 0 <= j < |paths| => PathLocation(paths[j]))
  }

  /** `this.current` mapped to the `fullPath` of each layer, as raw locations. */
  function LayerLocations(routes: seq<Route>): seq<RawLocation> {
    PathLocations(FullPaths(routes))
  }

  /** `navigateLastLayer`: every layer but the last keeps its path, the last becomes `location`. */
  function LastLayerCandidates(current: seq<Route>, location: RawLocation): (r: seq<RawLocation>)
    ensures |current| > 0 ==> |r| == |current|
    ensures |current| == 0 ==> r == [location]
    ensures r[|r| - 1] == location
    ensures forall j :: 0 <= j < |current| - 1 ==> r[j] == PathLocation(current[j].fullPath)
  {
    LayerLocations(Slice(current, 0, -1)) + [location]
  }

  /** `navigateLayer`: layer `layer` becomes `location`, the layers around it keep their paths. */
  function LayerCandidates(current: seq<Route>, layer: int, location: RawLocation): (r: seq<RawLocation>)
    ensures 0 <= layer < |current| ==>
      && |r| == |current|
      && r[layer] == location
      && forall j :: 0 <= j < |current| && j != layer ==> r[j] == PathLocation(current[j].fullPath)
  {
    LayerLocations(Slice(current, 0, layer)) + [location] + LayerLocations(Slice(current, layer + 1, |current|))
  }

  /** `navigateAddLayer`: all layers keep their paths and `location` goes on top. */
  function AddLayerCandidates(current: seq<Route>, location: RawLocation): (r: seq<RawLocation>)
    ensures |r| == |current| + 1
    ensures r[|current|] == location
    ensures forall j :: 0 <= j < |current| ==> r[j] == PathLocation(current[j].fullPath)
  {
    LayerLocations(current) + [location]
  }

  /** `navigateRemoveLayer`: every layer but the last keeps its path; nothing is added. */
  function RemoveLayerCandidates(current: seq<Route>): (r: seq<RawLocation>)
    ensures |current| > 0 ==> |r| == |current| - 1
    ensures |current| <= 1 ==> r == []
    ensures forall j :: 0 <= j < |r| ==> r[j] == PathLocation(current[j].fullPath)
  {
    LayerLocations(Slice(current, 0, -1))
  }

  /** Replacing the last layer is replacing the layer at the top index. */
  lemma LastLayerIsTopLayer(current: seq<Route>, location: RawLocation)
    requires |current| > 0
    ensures LastLayerCandidates(current, location) == LayerCandidates(current, |current| - 1, location)
  {
    var r := LastLayerCandidates(current, location);
    var t := LayerCandidates(current, |current| - 1, location);
    assert |r| == |t|;
    forall j | 0 <= j < |r| ensures r[j] == t[j] {
    }
  }

  /** A layer index at or past the top appends, as `navigateAddLayer` does. */
  lemma LayerPastTopAdds(current: seq<Route>, layer: int, location: RawLocation)
    requires layer >= |current|
    ensures LayerCandidates(current, layer, location) == AddLayerCandidates(current, location)
  {
    assert Slice(current, 0, layer) == current;
  }

  /** Removing the last layer is replacing it with nothing: the last-layer list without its top. */
  lemma RemoveIsLastWithoutTop(current: seq<Route>, location: RawLocation)
    ensures LastLayerCandidates(current, location) == RemoveLayerCandidates(current) + [location]
  {
  }
}

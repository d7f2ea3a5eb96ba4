/** The Leaflet map of frontend/src/components/TacticalMap.jsx: which villages get
    a circle marker, its colour, label and radius, and the points the map is fitted to. */
module TacticalMap {
  import opened Common
  import opened Seqs
  import opened Severity
  import opened ClientData

  /** `getColor(wsi)`. */
  function GetColor(wsi: real): (r: string)
    ensures r == "#ef4444" <==> TierOf(wsi) == Critical
    ensures r == "#f59e0b" <==> TierOf(wsi) == Warning
    ensures r == "#10b981" <==> TierOf(wsi) == Safe
  {
    if wsi > 70.0 then "#ef4444" else if wsi > 40.0 then "#f59e0b" else "#10b981"
  }

  /** `getLabel(wsi)`. */
  function GetLabel(wsi: real): (r: string)
    ensures r == "Critical" <==> TierOf(wsi) == Critical
    ensures r == "Warning" <==> TierOf(wsi) == Warning
    ensures r == "Safe" <==> TierOf(wsi) == Safe
  {
    if wsi > 70.0 then "Critical" else if wsi > 40.0 then "Warning" else "Safe"
  }

  /** Colour and label never disagree about the tier. */
  lemma ColorMatchesLabel(wsi: real)
    ensures GetColor(wsi) == "#ef4444" <==> GetLabel(wsi) == "Critical"
    ensures GetColor(wsi) == "#f59e0b" <==> GetLabel(wsi) == "Warning"
    ensures GetColor(wsi) == "#10b981" <==> GetLabel(wsi) == "Safe"
  {
  }

  /** The marker radius: 12 for critical, 9 for warning, 7 for safe. */
  function Radius(wsi: real): (r: nat)
    ensures r == 12 <==> TierOf(wsi) == Critical
    ensures r == 9 <==> TierOf(wsi) == Warning
    ensures r == 7 <==> TierOf(wsi) == Safe
  {
    if wsi > 70.0 then 12 else if wsi > 40.0 then 9 else 7
  }

  /** `v.lat || v.latitude || 0` and `v.lng || v.longitude || 0`. */
  function MarkerLat(v: Village): real { OrZero(OrNum(v.lat, v.latitude)) }
  function MarkerLng(v: Village): real { OrZero(OrNum(v.lng, v.longitude)) }

  /** A village is drawn only when both coordinates are truthy. */
  predicate HasPosition(v: Village) {
    MarkerLat(v) != 0.0 && MarkerLng(v) != 0.0
  }

  datatype Marker = Marker(village: Village, lat: real, lng: real, radius: nat, color: string, caption: string)

  /** The marker of a village: at its coordinates, with radius, colour and
      caption all naming the tier of `(v.wsi || 0)`. */
  function MarkerOf(v: Village): (m: Marker)
    ensures m.village == v && m.lat == MarkerLat(v) && m.lng == MarkerLng(v)
    ensures TierOf(WsiOrZero(v)) == Critical <==> m.radius == 12 && m.color == "#ef4444" && m.caption == "Critical"
    ensures TierOf(WsiOrZero(v)) == Warning <==> m.radius == 9 && m.color == "#f59e0b" && m.caption == "Warning"
    ensures TierOf(WsiOrZero(v)) == Safe <==> m.radius == 7 && m.color == "#10b981" && m.caption == "Safe"
  {
    var w := WsiOrZero(v);
    Marker(v, MarkerLat(v), MarkerLng(v), Radius(w), GetColor(w), GetLabel(w))
  }

  /** The markers drawn for a village list, in list order; an absent list draws none. */
  function Markers(villages: Option<seq<Village>>): (r: seq<Marker>)
    ensures |r| <= |OrNil(villages)|
    ensures forall i :: 0 <= i < |r| ==> r[i].lat != 0.0 && r[i].lng != 0.0
    ensures forall i :: 0 <= i < |r| ==>
      r[i].radius == Radius(WsiOrZero(r[i].village)) && r[i].color == GetColor(WsiOrZero(r[i].village))
      && r[i].caption == GetLabel(WsiOrZero(r[i].village))
    decreases |OrNil(villages)|
  {
    var vs := OrNil(villages);
    if vs == [] then []
    else
      var v := vs[|vs| - 1];
      Markers(Some(vs[..|vs| - 1])) + (if HasPosition(v) then [MarkerOf(v)] else [])
  }

  /** The markers are exactly the positioned villages, each drawn once, in order. */
  lemma {:induction false} MarkersArePositioned(vs: seq<Village>)
    ensures Markers(Some(vs)) == Map(Filter(vs, HasPosition), MarkerOf)
    decreases |vs|
  {
    if vs != [] {
      var init := vs[..|vs| - 1];
      MarkersArePositioned(init);
      var f := Filter(init, HasPosition);
      if HasPosition(vs[|vs| - 1]) {
        var g := f + [vs[|vs| - 1]];
        assert g[..|g| - 1] == f;
      }
    }
  }

  /** A village without a truthy latitude or longitude gets no marker. */
  lemma UnpositionedNotDrawn(vs: seq<Village>, i: int)
    requires 0 <= i < |vs| && !HasPosition(vs[i])
    ensures forall j :: 0 <= j < |Markers(Some(vs))| ==> Markers(Some(vs))[j].village != vs[i]
  {
    MarkersArePositioned(vs);
  }

  /** `v.lat || v.latitude || fallback` for the map bounds. */
  function BoundCoord(a: JsNumber, b: JsNumber, fallback: real): (r: real)
    ensures NumTruthy(a) ==> r == a.value
    ensures !NumTruthy(a) && NumTruthy(b) ==> r == b.value
    ensures !NumTruthy(a) && !NumTruthy(b) ==> r == fallback
  {
    var c := OrNum(a, b);
    if NumTruthy(c) then c.value else fallback
  }

  /** The points passed to `fitBounds`: fallbacks 21.15 and 79.08. None means that
      the bounds are left alone, which happens for an absent or empty list. */
  function Bounds(villages: Option<seq<Village>>): (r: Option<seq<(real, real)>>)
    ensures r.Some? <==> |OrNil(villages)| > 0
    ensures r.Some? ==> |r.value| == |villages.value| && forall i :: 0 <= i < |r.value| ==>
      r.value[i] == (BoundCoord(villages.value[i].lat, villages.value[i].latitude, 21.15),
                     BoundCoord(villages.value[i].lng, villages.value[i].longitude, 79.08))
  {
    if villages.None? || |villages.value| == 0 then None
    else Some(Map(villages.value, (v: Village) =>
                  (BoundCoord(v.lat, v.latitude, 21.15), BoundCoord(v.lng, v.longitude, 79.08))))
  }

  /** The loading overlay, `loading && villages.length === 0`, which reads the
      length of an absent list and so throws while loading. */
  function LoadingOverlay(villages: Option<seq<Village>>, loading: bool): (r: Result<bool>)
    ensures r.Err? <==> loading && villages.None?
    ensures r.Ok? ==> (r.value <==> loading && |villages.value| == 0)
  {
    if !loading then Ok(false)
    else if villages.None? then Err("TypeError")
    else Ok(|villages.value| == 0)
  }
}

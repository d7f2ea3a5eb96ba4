/** The schematic map of frontend/src/components/MapViewPanel.jsx: a pin per
    village at a fixed position for the five seed villages, styled by tier. */
module MapViewPanel {
  import opened Common
  import opened Seqs
  import opened Severity
  import opened ClientData

  /** A pin position as CSS percentages. */
  datatype Position = Position(top: string, left: string)

  /** The `mockCoordinates` table. */
  function MockCoordinates(id: string): (r: Option<Position>)
    ensures r.Some? <==> id in {"V001", "V002", "V003", "V004", "V005"}
  {
    if id == "V001" then Some(Position("30%", "70%"))
    else if id == "V002" then Some(Position("40%", "40%"))
    else if id == "V003" then Some(Position("65%", "30%"))
    else if id == "V004" then Some(Position("75%", "60%"))
    else if id == "V005" then Some(Position("80%", "85%"))
    else None
  }

  /** `mockCoordinates[village.id] || { top: '50%', left: '50%' }`; an absent id
      is looked up as the key "undefined". */
  function CoordsOf(id: Option<string>): (r: Position)
    ensures MockCoordinates(Render(id)).Some? ==> r == MockCoordinates(Render(id)).value
    ensures MockCoordinates(Render(id)).None? ==> r == Position("50%", "50%")
  {
    var c := MockCoordinates(Render(id));
    if c.Some? then c.value else Position("50%", "50%")
  }

  /** Only the five seed ids have their own place; every other village sits in the centre. */
  lemma OnlySeedsPlaced(id: Option<string>)
    ensures CoordsOf(id) != Position("50%", "50%") <==> id.Some? && id.value in {"V001", "V002", "V003", "V004", "V005"}
  {
  }

  /** `getPinStyle(wsi)` on the raw field. */
  function PinStyle(wsi: JsNumber): (r: string)
    ensures r == "bg-red-500 shadow-red-500/50 animate-bounce" <==> ClientTier(wsi) == Critical
    ensures r == "bg-amber-500 shadow-amber-500/50" <==> ClientTier(wsi) == Warning
    ensures r == "bg-emerald-500 shadow-emerald-500/50" <==> ClientTier(wsi) == Safe
  {
    if Gt(wsi, 70.0) then "bg-red-500 shadow-red-500/50 animate-bounce"
    else if Gt(wsi, 40.0) then "bg-amber-500 shadow-amber-500/50"
    else "bg-emerald-500 shadow-emerald-500/50"
  }

  /** The pin tail colour. */
  function TailColor(wsi: JsNumber): (r: string)
    ensures r == "border-t-red-500" <==> ClientTier(wsi) == Critical
    ensures r == "border-t-amber-500" <==> ClientTier(wsi) == Warning
    ensures r == "border-t-emerald-500" <==> ClientTier(wsi) == Safe
  {
    if Gt(wsi, 70.0) then "border-t-red-500" else if Gt(wsi, 40.0) then "border-t-amber-500" else "border-t-emerald-500"
  }

  /** The tooltip's WSI colour. */
  function TooltipColor(wsi: JsNumber): (r: string)
    ensures r == "text-red-400" <==> ClientTier(wsi) == Critical
    ensures r == "text-amber-400" <==> ClientTier(wsi) == Warning
    ensures r == "text-emerald-400" <==> ClientTier(wsi) == Safe
  {
    if Gt(wsi, 70.0) then "text-red-400" else if Gt(wsi, 40.0) then "text-amber-400" else "text-emerald-400"
  }

  /** Pin, tail and tooltip always show the same tier; WSI 40 is styled safe. */
  lemma PinPartsAgree(wsi: JsNumber)
    ensures PinStyle(wsi) == "bg-red-500 shadow-red-500/50 animate-bounce" <==> TailColor(wsi) == "border-t-red-500"
    ensures TailColor(wsi) == "border-t-red-500" <==> TooltipColor(wsi) == "text-red-400"
    ensures PinStyle(wsi) == "bg-amber-500 shadow-amber-500/50" <==> TailColor(wsi) == "border-t-amber-500"
    ensures TailColor(wsi) == "border-t-amber-500" <==> TooltipColor(wsi) == "text-amber-400"
    ensures PinStyle(Some(40.0)) == "bg-emerald-500 shadow-emerald-500/50"
  {
  }

  datatype Pin = Pin(village: Village, position: Position, style: string, tail: string, tooltip: string)

  function PinOf(v: Village): Pin {
    Pin(v, CoordsOf(v.id), PinStyle(v.wsi), TailColor(v.wsi), TooltipColor(v.wsi))
  }

  datatype View = Spinner | Crash | Pins(pins: seq<Pin>)

  /** The panel: a spinner while loading, else one pin per village in order
      (`villages.map` throws when the list is absent). */
  function Panel(villages: Option<seq<Village>>, loading: bool): (r: View)
    ensures r == Spinner <==> loading
    ensures r == Crash <==> !loading && villages.None?
    ensures r.Pins? ==> |r.pins| == |villages.value| && forall i :: 0 <= i < |r.pins| ==>
      r.pins[i].village == villages.value[i] && r.pins[i].position == CoordsOf(villages.value[i].id)
      && r.pins[i].style == PinStyle(villages.value[i].wsi)
  {
    if loading then Spinner
    else if villages.None? then Crash
    else Pins(Map(villages.value, PinOf))
  }
}

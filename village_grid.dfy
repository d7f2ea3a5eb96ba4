/** The village table of frontend/src/components/VillageGrid.jsx: a badge per
    row and one row per village; its search box is not connected to anything. */
module VillageGrid {
  import opened Common
  import opened Severity
  import opened ClientData

  /** The three colour schemes of the badge. */
  datatype Palette = Red | Yellow | Green

  /** The Tailwind classes of a colour scheme: background, text, border and dot. */
  datatype Classes = Classes(bg: string, text: string, border: string, dot: string)

  function ClassesOf(p: Palette): Classes {
    match p
    case Red => Classes("bg-red-50 dark:bg-red-900/30", "text-red-700 dark:text-red-400", "border-red-100 dark:border-red-900/50", "bg-red-600")
    case Yellow => Classes("bg-yellow-50 dark:bg-yellow-900/30", "text-yellow-700 dark:text-yellow-400", "border-yellow-100 dark:border-yellow-900/50", "bg-yellow-600")
    case Green => Classes("bg-green-50 dark:bg-green-900/30", "text-green-700 dark:text-green-400", "border-green-100 dark:border-green-900/50", "bg-green-600")
  }

  /** A badge: its colour scheme (whose classes ClassesOf gives), label and ping animation. */
  datatype BadgeStyle = BadgeStyle(palette: Palette, badgeLabel: string, ping: bool)

  /** `getBadgeStyle(wsi)` on the raw field. */
  function GetBadgeStyle(wsi: JsNumber): (s: BadgeStyle)
    ensures s.badgeLabel == "CRITICAL" <==> ClientTier(wsi) == Critical
    ensures s.badgeLabel == "WARNING" <==> ClientTier(wsi) == Warning
    ensures s.badgeLabel == "SAFE" <==> ClientTier(wsi) == Safe
    ensures s.ping <==> s.badgeLabel == "CRITICAL"
    ensures s.palette == Red <==> ClientTier(wsi) == Critical
    ensures s.palette == Yellow <==> ClientTier(wsi) == Warning
  {
    if Gt(wsi, 70.0) then BadgeStyle(Red, "CRITICAL", true)
    else if Gt(wsi, 40.0) then BadgeStyle(Yellow, "WARNING", false)
    else BadgeStyle(Green, "SAFE", false)
  }

  datatype Row = Row(village: Village, style: BadgeStyle, population: real)

  /** The rows of the table body. Each row calls `village.population.toLocaleString()`,
      which throws for a village without a population, so one such village fails the
      whole render (RowsSpec states which rows come out). */
  function Rows(villages: seq<Village>): (r: Result<seq<Row>>)
    ensures r.Ok? ==> |r.value| == |villages|
  {
    if villages == [] then Ok([])
    else
      var init := Rows(villages[..|villages| - 1]);
      var v := villages[|villages| - 1];
      if init.Err? then init
      else if v.population.None? then Err("TypeError")
      else Ok(init.value + [RowOf(v)])
  }

  /** The table renders iff every village has a population, and then it holds
      one row per village, in order, none filtered out. */
  lemma {:induction false} RowsSpec(villages: seq<Village>)
    ensures Rows(villages).Ok? <==> forall i :: 0 <= i < |villages| ==> villages[i].population.Some?
    ensures Rows(villages).Ok? ==> forall i :: 0 <= i < |villages| ==> Rows(villages).value[i] == RowOf(villages[i])
    decreases |villages|
  {
    if villages != [] {
      var front := villages[..|villages| - 1];
      RowsSpec(front);
      assert forall i :: 0 <= i < |front| ==> front[i] == villages[i];
    }
  }

  /** The row of a village with a population: its badge and its population. */
  function RowOf(v: Village): Row
    requires v.population.Some?
  {
    Row(v, GetBadgeStyle(v.wsi), v.population.value)
  }

  /** The "No villages data found." row shows exactly when the list is empty. */
  function ShowsEmptyState(villages: seq<Village>): (b: bool)
    ensures b <==> |villages| == 0
  {
    |villages| == 0
  }
}

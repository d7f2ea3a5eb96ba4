/** The three WSI formatting helpers of frontend/src/utils/colorUtils.js: a CSS
    class, a hex colour and a label, each chosen by the severity tier. */
module ColorUtils {
  import opened Common
  import opened Severity

  /** `getWsiColorClass(wsi)`. */
  function GetWsiColorClass(wsi: JsNumber): (r: string)
    ensures r == "wsi-critical" <==> ClientTier(wsi) == Critical
    ensures r == "wsi-moderate" <==> ClientTier(wsi) == Warning
    ensures r == "wsi-safe" <==> ClientTier(wsi) == Safe
  {
    if Gt(wsi, 70.0) then "wsi-critical"
    else if Gt(wsi, 40.0) then "wsi-moderate"
    else "wsi-safe"
  }

  /** `getWsiColor(wsi)`. */
  function GetWsiColor(wsi: JsNumber): (r: string)
    ensures r == "#ef4444" <==> ClientTier(wsi) == Critical
    ensures r == "#f59e0b" <==> ClientTier(wsi) == Warning
    ensures r == "#22c55e" <==> ClientTier(wsi) == Safe
  {
    if Gt(wsi, 70.0) then "#ef4444"
    else if Gt(wsi, 40.0) then "#f59e0b"
    else "#22c55e"
  }

  /** `getWsiLabel(wsi)`. */
  function GetWsiLabel(wsi: JsNumber): (r: string)
    ensures r == "Critical" <==> ClientTier(wsi) == Critical
    ensures r == "Moderate" <==> ClientTier(wsi) == Warning
    ensures r == "Safe" <==> ClientTier(wsi) == Safe
  {
    if Gt(wsi, 70.0) then "Critical"
    else if Gt(wsi, 40.0) then "Moderate"
    else "Safe"
  }

  /** The three helpers agree tier for tier, and each returns one of exactly three values. */
  lemma HelpersAgree(wsi: JsNumber)
    ensures GetWsiColorClass(wsi) == "wsi-critical" <==> GetWsiColor(wsi) == "#ef4444"
    ensures GetWsiColor(wsi) == "#ef4444" <==> GetWsiLabel(wsi) == "Critical"
    ensures GetWsiColorClass(wsi) == "wsi-moderate" <==> GetWsiColor(wsi) == "#f59e0b"
    ensures GetWsiColor(wsi) == "#f59e0b" <==> GetWsiLabel(wsi) == "Moderate"
    ensures GetWsiColorClass(wsi) == "wsi-safe" <==> GetWsiColor(wsi) == "#22c55e"
    ensures GetWsiColor(wsi) == "#22c55e" <==> GetWsiLabel(wsi) == "Safe"
    ensures GetWsiColorClass(wsi) in {"wsi-critical", "wsi-moderate", "wsi-safe"}
    ensures GetWsiColor(wsi) in {"#ef4444", "#f59e0b", "#22c55e"}
    ensures GetWsiLabel(wsi) in {"Critical", "Moderate", "Safe"}
  {
  }

  /** The boundaries are strict: 70 is moderate, 40 is safe, and an absent WSI is safe. */
  lemma HelperBoundaries()
    ensures GetWsiColorClass(Some(70.0)) == "wsi-moderate" && GetWsiColor(Some(70.0)) == "#f59e0b" && GetWsiLabel(Some(70.0)) == "Moderate"
    ensures GetWsiColorClass(Some(40.0)) == "wsi-safe" && GetWsiColor(Some(40.0)) == "#22c55e" && GetWsiLabel(Some(40.0)) == "Safe"
    ensures GetWsiColorClass(None) == "wsi-safe" && GetWsiLabel(None) == "Safe"
  {
  }
}

/**
 * The two lookup tables the launcher (Printzini.py) hands to the monitor:
 * the printer firmware's flow-state codes, as reported by the
 * `printer/diagnostics/temperature_flow` endpoint, and the case-LED colour
 * for each status word. Colours are named here by their palette key; the
 * launcher stores the palette's HSV value under each status.
 */
module StatusTables {
  import opened Wrappers
  import Text

  /** Flow-state code -> status word. Codes 2 to 9 are not listed. */
  const FlowStateMap: map<int, string> := map[
    0 := "printing",
    1 := "printing",
    10 := "idle",
    11 := "pausing",
    12 := "paused",
    13 := "resuming",
    14 := "pre_print",
    15 := "post_print",
    16 := "wait_cleanup",
    17 := "wait_user_action"]

  /** The words codes 10 to 17 stand for, in code order. */
  const FlowWordsFrom10: seq<string> := [
    "idle", "pausing", "paused", "resuming",
    "pre_print", "post_print", "wait_cleanup", "wait_user_action"]

  /** The statuses that only the coarse `printer/status` endpoint reports. */
  const CoarseOnly: set<string> := {"error", "maintenance", "booting"}

  /** Status word -> palette colour name. */
  const StatusColors: map<string, string> := map[
    "idle" := "PrussianBlue",
    "printing" := "TitaniumWhite",
    "pausing" := "IndianYellow",
    "paused" := "CadmiumYellow",
    "resuming" := "IndianYellow",
    "pre_print" := "SapGreen",
    "post_print" := "BrightBlue",
    "wait_cleanup" := "BrightGreen",
    "wait_user_action" := "BrightRed",
    "error" := "BrightRed",
    "maintenance" := "CadmiumYellow",
    "booting" := "PhthaloGreen"]

  /**
   * `statusMap[flowState]`: a partial lookup. A code outside the table raises
   * KeyError in the source, which is None here; no code yields "unknown".
   */
  function FlowStateWords(code: int): (r: Option<string>)
    ensures r.Some? <==> code == 0 || code == 1 || 10 <= code <= 17
    ensures code == 0 || code == 1 ==> r == Some("printing")
    ensures 10 <= code <= 17 ==> r == Some(FlowWordsFrom10[code - 10])
    ensures r != Some("unknown")
  {
    if code in FlowStateMap then Some(FlowStateMap[code]) else None
  }

  /** `statusColors[status]`, None where the source would raise KeyError. */
  function StatusColor(status: string): (r: Option<string>)
    ensures r.Some? <==> status in FlowStateMap.Values || status in CoarseOnly
  {
    ColorsCoverEveryStatus();
    if status in StatusColors then Some(StatusColors[status]) else None
  }

  /** Every status word the monitor can derive has a colour, and nothing else does. */
  lemma ColorsCoverEveryStatus()
    ensures StatusColors.Keys == FlowStateMap.Values + CoarseOnly
  {
    assert FlowStateMap[0] == "printing" && FlowStateMap[10] == "idle";
    assert FlowStateMap[11] == "pausing" && FlowStateMap[12] == "paused";
    assert FlowStateMap[13] == "resuming" && FlowStateMap[14] == "pre_print";
    assert FlowStateMap[15] == "post_print" && FlowStateMap[16] == "wait_cleanup";
    assert FlowStateMap[17] == "wait_user_action";
  }

  /** Statuses that deliberately share a colour. */
  lemma SharedColors()
    ensures StatusColors["pausing"] == StatusColors["resuming"] == "IndianYellow"
    ensures StatusColors["paused"] == StatusColors["maintenance"] == "CadmiumYellow"
    ensures StatusColors["wait_user_action"] == StatusColors["error"] == "BrightRed"
  {
  }

  /** Every word a flow-state code stands for is already lower case, so `.lower()` leaves it unchanged (Text.LowerOfLowerCase). */
  lemma FlowWordsAreLowerCase(code: int)
    requires FlowStateWords(code).Some?
    ensures Text.IsLowerCase(FlowStateWords(code).value)
  {
    if code == 0 || code == 1 { assert Text.IsLowerCase("printing"); }
    if code == 10 { assert Text.IsLowerCase("idle"); }
    if code == 11 { assert Text.IsLowerCase("pausing"); }
    if code == 12 { assert Text.IsLowerCase("paused"); }
    if code == 13 { assert Text.IsLowerCase("resuming"); }
    if code == 14 { assert Text.IsLowerCase("pre_print"); }
    if code == 15 { assert Text.IsLowerCase("post_print"); }
    if code == 16 { assert Text.IsLowerCase("wait_cleanup"); }
    if code == 17 { assert Text.IsLowerCase("wait_user_action"); }
  }

  /** The coarse-only statuses are lower case as well. */
  lemma CoarseWordsAreLowerCase(status: string)
    requires status in CoarseOnly
    ensures Text.IsLowerCase(status)
  {
    if status == "error" { assert Text.IsLowerCase("error"); }
    if status == "maintenance" { assert Text.IsLowerCase("maintenance"); }
    if status == "booting" { assert Text.IsLowerCase("booting"); }
  }
}

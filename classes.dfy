/**
 * The two plain record classes of ultimonitor/classes.py. They have no
 * methods; callers fill their fields in after construction. Python's None
 * is `Option.None`; timestamps are carried as their text.
 */
module Classes {
  import opened Wrappers

  /** The notice ledger a fresh job record starts with: six flags, all unset. */
  const JobNotices: map<string, bool> := map[
    "preamble" := false,
    "start" := false,
    "done10" := false,
    "done50" := false,
    "done90" := false,
    "completed" := false]

  class JobInProgress {
    var foundTime: Option<string>
    var reportedTime: Option<string>
    var printSetup: Option<string>
    var notices: map<string, bool>
    var jobname: Option<string>
    var uuid: Option<string>
    var timeElapsed: Option<real>
    var timeTotal: Option<real>
    var progress: Option<real>

    constructor ()
      ensures notices == JobNotices
      ensures foundTime == None && reportedTime == None && printSetup == None
      ensures jobname == None && uuid == None
      ensures timeElapsed == None && timeTotal == None && progress == None
    {
      foundTime, reportedTime, printSetup := None, None, None;
      notices := JobNotices;
      jobname, uuid := None, None;
      timeElapsed, timeTotal, progress := None, None, None;
    }
  }

  class ThreeDimensionalPrinter {
    var ip: Option<string>
    var printerType: Option<string>
    var apiid: Option<string>
    var apikey: Option<string>
    var enabled: bool

    constructor ()
      ensures enabled
      ensures ip == None && printerType == None && apiid == None && apikey == None
    {
      ip, printerType, apiid, apikey := None, None, None, None;
      enabled := true;
    }
  }

  /**
   * The job record's ledger has six unset flags, and its last one is keyed
   * "completed": the "end" key the monitor reads and writes is not there.
   */
  lemma JobNoticesShape()
    ensures |JobNotices.Keys| == 6
    ensures forall k :: k in JobNotices ==> !JobNotices[k]
    ensures "completed" in JobNotices && "end" !in JobNotices
  {
    assert JobNotices.Keys == {"preamble", "start", "done10", "done50", "done90", "completed"};
  }
}

/**
 * Clausius.py: the stand-alone temperature collector. Each pass of
 * `startCollections` builds a fresh accumulator (`setupStats`), takes one
 * poll's temperature statistics and collapses them into it, so the job
 * figures it reports are always those of the latest poll alone. The text
 * rendering (`formatStatus`) is not part of this model.
 */
module Clausius {
  import opened Wrappers
  import opened Printer

  datatype PassError =
    | TempsFailed(e: TempError)   // tempStats raised
    | NoTemps                      // tempStats gave {}: collapseStats raises KeyError

  /** What one pass yields: nothing when the status check failed, else the job figures or the error. */
  function PassOf(statusOk: bool, flow: FlowQuery, median: seq<real> -> real, std: seq<real> -> real)
    : (r: Result<Option<JobStats>, PassError>)
    ensures !statusOk ==> r == Ok(None)
    ensures statusOk && flow.QueryFailed? ==> r == Err(NoTemps)
  {
    if !statusOk then Ok(None)
    else
      match TempStatsOf(flow, median, std)
      case Err(e) => Err(TempsFailed(e))
      case Ok(None) => Err(NoTemps)
      case Ok(Some(p)) =>
        SinglePoll(p);
        Ok(Some(JobStatsOf(Accumulate(EmptyLists(), p), 0.0 + p.calculationTime)))
  }

  /** A poll's statistics always come out ordered, so they can be collapsed. */
  lemma TempStatsOrdered(flow: FlowQuery, median: seq<real> -> real, std: seq<real> -> real)
    requires TempStatsOf(flow, median, std).Ok? && TempStatsOf(flow, median, std).value.Some?
    ensures var p := TempStatsOf(flow, median, std).value.value;
      Ordered(p.t0) && Ordered(p.t1) && Ordered(p.bed)
  {
  }

  /**
   * One pass of `startCollections`: a fresh accumulator, one poll collapsed
   * into it. Every statistic list then holds exactly one value.
   */
  method StartCollectionsPass(statusOk: bool, flow: FlowQuery,
                              median: seq<real> -> real, std: seq<real> -> real)
    returns (r: Result<Option<JobStats>, PassError>)
    ensures r == PassOf(statusOk, flow, median, std)
  {
    if !statusOk {
      return Ok(None);
    }
    var tstats := new TempAccumulator();
    var retTemps := TempStats(flow, median, std);
    match retTemps
    case Err(e) =>
      r := Err(TempsFailed(e));
    case Ok(None) =>
      var dstats := tstats.Collapse(None);
      assert dstats.Err?;
      r := Err(NoTemps);
    case Ok(Some(p)) =>
      TempStatsOrdered(flow, median, std);
      var dstats := tstats.Collapse(Some(p));
      assert tstats.lists == Accumulate(EmptyLists(), p);
      assert tstats.calculationTime == 0.0 + p.calculationTime;
      assert dstats == Ok(JobStatsOf(Accumulate(EmptyLists(), p), 0.0 + p.calculationTime));
      r := Ok(Some(dstats.value));
  }

  /** After a pass every list of the rebuilt accumulator holds exactly one value. */
  lemma OneValuePerList(p: PollTemps)
    requires Ordered(p.t0) && Ordered(p.t1) && Ordered(p.bed)
    ensures Consistent(Accumulate(EmptyLists(), p), 1)
  {
    EmptyConsistent();
    AccumulateConsistent(EmptyLists(), 0, p);
  }

  /** The figures a pass reports are the poll's own: time span, and per channel the average, spread, minimum and maximum of the deviations. */
  lemma PassReportsThePoll(flow: FlowQuery, median: seq<real> -> real, std: seq<real> -> real)
    requires TempStatsOf(flow, median, std).Ok? && TempStatsOf(flow, median, std).value.Some?
    ensures var p := TempStatsOf(flow, median, std).value.value;
      PassOf(true, flow, median, std) == Ok(Some(JobStats(p.calculationTime,
        ChannelSummary(p.t0.deltaavg, p.t0.deltastd, p.t0.deltamin, p.t0.deltamax),
        ChannelSummary(p.t1.deltaavg, p.t1.deltastd, p.t1.deltamin, p.t1.deltamax),
        ChannelSummary(p.bed.deltaavg, p.bed.deltastd, p.bed.deltamin, p.bed.deltamax))))
  {
    SinglePoll(TempStatsOf(flow, median, std).value.value);
  }
}

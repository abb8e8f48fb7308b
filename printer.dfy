/**
 * ultimonitor/printer.py: the temperature statistics of one poll
 * (`tempStats`), their accumulation over a job (`collapseStats`), the job
 * parameters `statusCheck` derives from the print_job reply, and the
 * material description of `getMaterial`. HTTP replies are inputs; numpy's
 * median and standard deviation are function parameters.
 */
module Printer {
  import opened Wrappers
  import opened Stats
  import Text

  // ------------------------------------------------------------ tempStats

  /** The column labels of the temperature_flow table, in column order. */
  const Labels: seq<string> := [
    "Time",
    "temperature0", "target0", "heater0", "flow_sensor0", "flow_steps0",
    "temperature1", "target1", "heater1", "flow_sensor1", "flow_steps1",
    "bed_temperature", "bed_target", "bed_heater",
    "active_hotend_or_state"]

  const TimeCol: nat := 0
  const Temp0Col: nat := 1
  const Target0Col: nat := 2
  const Temp1Col: nat := 6
  const Target1Col: nat := 7
  const BedTempCol: nat := 11
  const BedTargetCol: nat := 12

  /**
   * The temperature_flow reply: `{}` when the query failed, else the table
   * after its header row (`tres[1:]`), one sample row per entry.
   */
  datatype FlowQuery = QueryFailed | FlowTable(samples: seq<seq<real>>)

  datatype TempError =
    | RowTooWide                   // a sample row has more entries than there are labels: IndexError
    | NoSamples                    // tdict['Time'][-1] on an empty column: IndexError
    | ShapeMismatch(channel: nat)  // target and temperature columns do not broadcast: ValueError
    | EmptySeries(channel: nat)    // np.min of an empty deviation series: ValueError

  datatype ChannelStats = ChannelStats(median: real, stddev: real, deltaavg: real,
                                       deltamin: real, deltamax: real, deltastd: real)

  /** `retTemps`: the poll's time span and one set of statistics per channel. */
  datatype PollTemps = PollTemps(calculationTime: real, t0: ChannelStats, t1: ChannelStats, bed: ChannelStats)

  /** Column `i` of the table: entry `i` of every row long enough to have one, in row order. */
  function Column(rows: seq<seq<real>>, i: nat): seq<real>
  {
    if rows == [] then []
    else
      var last := rows[|rows| - 1];
      Column(rows[..|rows| - 1], i) + (if i < |last| then [last[i]] else [])
  }

  /** Every sample row fits under the labels. */
  predicate FitsLabels(rows: seq<seq<real>>) {
    forall k :: 0 <= k < |rows| ==> |rows[k]| <= |Labels|
  }

  /** The per-label lists `tdict` holds once every row is distributed. */
  function Columns(rows: seq<seq<real>>): (r: seq<seq<real>>)
    ensures |r| == |Labels|
  {
    seq(|Labels|, i requires 0 <= i < |Labels| => Column(rows, i))
  }

  /**
   * The transposition loop of `tempStats`: entry `i` of each row goes to
   * list `i`. A row wider than the label list raises IndexError, None here.
   */
  method Transpose(rows: seq<seq<real>>) returns (r: Option<seq<seq<real>>>)
    ensures r.Some? <==> FitsLabels(rows)
    ensures r.Some? ==> r.value == Columns(rows)
  {
    var tdict: seq<seq<real>> := seq(|Labels|, _ => []);
    for k := 0 to |rows|
      invariant |tdict| == |Labels|
      invariant forall c :: 0 <= c < |Labels| ==> tdict[c] == Column(rows[..k], c)
      invariant FitsLabels(rows[..k])
    {
      var points := rows[k];
      for i := 0 to |points|
        invariant i <= |Labels|
        invariant |tdict| == |Labels|
        invariant forall c :: 0 <= c < |Labels| ==>
          tdict[c] == Column(rows[..k], c) + (if c < i then [points[c]] else [])
      {
        if i == |Labels| {
          assert !FitsLabels(rows) by {
            assert |rows[k]| > |Labels|;
          }
          return None;
        }
        tdict := tdict[i := tdict[i] + [points[i]]];
      }
      assert rows[..k + 1][..k] == rows[..k];
      assert FitsLabels(rows[..k + 1]) by {
        assert |points| <= |Labels|;
      }
    }
    assert rows[..|rows|] == rows;
    r := Some(tdict);
  }

  /** When every row has a value for every label, column `i` is exactly entry `i` of each row. */
  lemma {:induction false} UniformColumn(rows: seq<seq<real>>, i: nat)
    requires forall k :: 0 <= k < |rows| ==> |rows[k]| == |Labels|
    requires i < |Labels|
    ensures |Column(rows, i)| == |rows|
    ensures forall k :: 0 <= k < |rows| ==> Column(rows, i)[k] == rows[k][i]
  {
    if rows != [] {
      UniformColumn(rows[..|rows| - 1], i);
    }
  }

  /**
   * `np.abs(np.array(target) - np.array(current))` with numpy broadcasting:
   * equal lengths pair up, a single value pairs with every value of the
   * other, any other pair of lengths raises ValueError (None here).
   */
  function Broadcast(target: seq<real>, current: seq<real>): (r: Option<seq<real>>)
    ensures r.Some? <==> |target| == |current| || |target| == 1 || |current| == 1
    ensures |target| == |current| ==> r == Some(Deviations(target, current))
    ensures r.Some? ==> forall k :: 0 <= k < |r.value| ==> r.value[k] >= 0.0
  {
    if |target| == |current| then Some(Deviations(target, current))
    else if |target| == 1 then Some(seq(|current|, k requires 0 <= k < |current| => Abs(target[0] - current[k])))
    else if |current| == 1 then Some(seq(|target|, k requires 0 <= k < |target| => Abs(target[k] - current[0])))
    else None
  }

  /** The six statistics of one channel, or the error numpy raises on its columns. */
  function ChannelOf(target: seq<real>, temp: seq<real>, channel: nat,
                     median: seq<real> -> real, std: seq<real> -> real): (r: Result<ChannelStats, TempError>)
    ensures r.Err? <==> Broadcast(target, temp).None? || Broadcast(target, temp).value == []
    ensures r.Ok? ==>
      var d := Broadcast(target, temp).value;
      && r.value.median == median(temp) && r.value.stddev == std(temp)
      && r.value.deltamin == Min(d) && r.value.deltamax == Max(d)
      && r.value.deltaavg == Average(d) && r.value.deltastd == std(d)
      && 0.0 <= r.value.deltamin <= r.value.deltaavg <= r.value.deltamax
  {
    match Broadcast(target, temp)
    case None => Err(ShapeMismatch(channel))
    case Some(d) =>
      if d == [] then Err(EmptySeries(channel))
      else
        AverageBetweenMinAndMax(d);
        Ok(ChannelStats(median(temp), std(temp), Average(d), Min(d), Max(d), std(d)))
  }

  /**
   * numpy's broadcasting rule, in the column lengths: a shape error exactly
   * when the lengths differ and neither is 1, an empty series exactly when
   * they broadcast to nothing.
   */
  lemma ChannelErrors(target: seq<real>, temp: seq<real>, channel: nat,
                      median: seq<real> -> real, std: seq<real> -> real)
    ensures var r := ChannelOf(target, temp, channel, median, std);
      && (r == Err(ShapeMismatch(channel)) <==> |target| != |temp| && |target| != 1 && |temp| != 1)
      && (r == Err(EmptySeries(channel)) <==>
           (|target| == |temp| || |target| == 1 || |temp| == 1) && (|target| == 0 || |temp| == 0))
  {
  }

  /** Deviation statistics in their natural order: 0 <= min <= average <= max. */
  predicate Ordered(cs: ChannelStats) {
    0.0 <= cs.deltamin <= cs.deltaavg <= cs.deltamax
  }

  /** The statistics of one poll from the per-label lists, in the order the source computes them. */
  function PollStatsOf(cols: seq<seq<real>>, median: seq<real> -> real, std: seq<real> -> real)
    : (r: Result<PollTemps, TempError>)
    requires |cols| == |Labels|
    ensures cols[TimeCol] == [] ==> r == Err(NoSamples)
    ensures r.Ok? ==>
      && cols[TimeCol] != []
      && r.value.calculationTime == cols[TimeCol][|cols[TimeCol]| - 1] - cols[TimeCol][0]
      && Ordered(r.value.t0) && Ordered(r.value.t1) && Ordered(r.value.bed)
  {
    ChannelsOf(cols[TimeCol], cols[Target0Col], cols[Temp0Col], cols[Target1Col], cols[Temp1Col],
               cols[BedTargetCol], cols[BedTempCol], median, std)
  }

  /** The three channels of one poll, given the time column and each channel's target and temperature columns. */
  function ChannelsOf(time: seq<real>, target0: seq<real>, temp0: seq<real>, target1: seq<real>, temp1: seq<real>,
                      bedTarget: seq<real>, bedTemp: seq<real>, median: seq<real> -> real, std: seq<real> -> real)
    : (r: Result<PollTemps, TempError>)
    ensures time == [] ==> r == Err(NoSamples)
    ensures r.Ok? ==>
      && time != []
      && r.value.calculationTime == time[|time| - 1] - time[0]
      && Ordered(r.value.t0) && Ordered(r.value.t1) && Ordered(r.value.bed)
  {
    if time == [] then Err(NoSamples)
    else
      var trange := time[|time| - 1] - time[0];
      match ChannelOf(target0, temp0, 0, median, std)
      case Err(e) => Err(e)
      case Ok(t0) =>
        match ChannelOf(target1, temp1, 1, median, std)
        case Err(e) => Err(e)
        case Ok(t1) =>
          match ChannelOf(bedTarget, bedTemp, 2, median, std)
          case Err(e) => Err(e)
          case Ok(bed) => Ok(PollTemps(trange, t0, t1, bed))
  }

  /** What `tempStats` yields: `{}` (Ok(None)) exactly when the query failed. */
  function TempStatsOf(flow: FlowQuery, median: seq<real> -> real, std: seq<real> -> real)
    : (r: Result<Option<PollTemps>, TempError>)
    ensures r == Ok(None) <==> flow.QueryFailed?
    ensures flow.FlowTable? && !FitsLabels(flow.samples) ==> r == Err(RowTooWide)
  {
    match flow
    case QueryFailed => Ok(None)
    case FlowTable(rows) =>
      if !FitsLabels(rows) then Err(RowTooWide)
      else
        match PollStatsOf(Columns(rows), median, std)
        case Err(e) => Err(e)
        case Ok(p) => Ok(Some(p))
  }

  /** `tempStats`: transpose the reply's rows, then reduce each channel. */
  method TempStats(flow: FlowQuery, median: seq<real> -> real, std: seq<real> -> real)
    returns (r: Result<Option<PollTemps>, TempError>)
    ensures r == TempStatsOf(flow, median, std)
  {
    match flow
    case QueryFailed =>
      return Ok(None);
    case FlowTable(rows) =>
      var cols := Transpose(rows);
      if cols.None? {
        return Err(RowTooWide);
      }
      match PollStatsOf(cols.value, median, std)
      case Err(e) => r := Err(e);
      case Ok(p) => r := Ok(Some(p));
  }

  /** `|target - current|` read straight off the rows, one value per sample. */
  function RowDeviations(rows: seq<seq<real>>, target: nat, current: nat): (r: seq<real>)
    requires forall k :: 0 <= k < |rows| ==> target < |rows[k]| && current < |rows[k]|
    ensures |r| == |rows|
  {
    seq(|rows|, k requires 0 <= k < |rows| => Abs(rows[k][target] - rows[k][current]))
  }

  lemma UniformDeviations(rows: seq<seq<real>>, target: nat, current: nat)
    requires forall k :: 0 <= k < |rows| ==> |rows[k]| == |Labels|
    requires target < |Labels| && current < |Labels|
    ensures Broadcast(Column(rows, target), Column(rows, current)) == Some(RowDeviations(rows, target, current))
  {
    UniformColumn(rows, target);
    UniformColumn(rows, current);
    var a, b := Column(rows, target), Column(rows, current);
    assert Deviations(a, b) == RowDeviations(rows, target, current);
  }

  /**
   * A well-formed table (at least one full-width row) always yields
   * statistics: the time span is last minus first Time sample, and each
   * channel's deviation extremes and mean are those of |target - temperature|
   * taken row by row.
   */
  lemma WellFormedTable(rows: seq<seq<real>>, median: seq<real> -> real, std: seq<real> -> real)
    requires |rows| > 0
    requires forall k :: 0 <= k < |rows| ==> |rows[k]| == |Labels|
    ensures var r := TempStatsOf(FlowTable(rows), median, std);
      && r.Ok? && r.value.Some?
      && var p := r.value.value;
      && p.calculationTime == rows[|rows| - 1][TimeCol] - rows[0][TimeCol]
      && p.t0.deltamin == Min(RowDeviations(rows, Target0Col, Temp0Col))
      && p.t0.deltamax == Max(RowDeviations(rows, Target0Col, Temp0Col))
      && p.t0.deltaavg == Average(RowDeviations(rows, Target0Col, Temp0Col))
      && p.t1.deltamin == Min(RowDeviations(rows, Target1Col, Temp1Col))
      && p.t1.deltamax == Max(RowDeviations(rows, Target1Col, Temp1Col))
      && p.t1.deltaavg == Average(RowDeviations(rows, Target1Col, Temp1Col))
      && p.bed.deltamin == Min(RowDeviations(rows, BedTargetCol, BedTempCol))
      && p.bed.deltamax == Max(RowDeviations(rows, BedTargetCol, BedTempCol))
      && p.bed.deltaavg == Average(RowDeviations(rows, BedTargetCol, BedTempCol))
  {
    var cols := Columns(rows);
    UniformColumn(rows, TimeCol);
    UniformDeviations(rows, Target0Col, Temp0Col);
    UniformDeviations(rows, Target1Col, Temp1Col);
    UniformDeviations(rows, BedTargetCol, BedTempCol);
    assert cols[TimeCol] == Column(rows, TimeCol);
    assert cols[Target0Col] == Column(rows, Target0Col) && cols[Temp0Col] == Column(rows, Temp0Col);
    assert cols[Target1Col] == Column(rows, Target1Col) && cols[Temp1Col] == Column(rows, Temp1Col);
    assert cols[BedTargetCol] == Column(rows, BedTargetCol) && cols[BedTempCol] == Column(rows, BedTempCol);
  }

  /** A reply with no sample rows (only the header, or an empty list) raises on the Time column. */
  lemma NoRowsNoStats(median: seq<real> -> real, std: seq<real> -> real)
    ensures TempStatsOf(FlowTable([]), median, std) == Err(NoSamples)
  {
    assert Columns([])[TimeCol] == [];
  }

  // -------------------------------------------------------- collapseStats

  /** The accumulator's channels and, per channel, its statistic lists, in the order `setupStats` lists them. */
  const ChannelNames: seq<string> := ["Temperature0", "Temperature1", "Bed"]
  const StatNames: seq<string> := ["median", "stddev", "deltaavg", "deltamin", "deltamax", "deltastd"]

  const DeltaAvgIx: nat := 2
  const DeltaMinIx: nat := 3
  const DeltaMaxIx: nat := 4
  const DeltaStdIx: nat := 5

  /** Statistic `e` of a channel, in `StatNames` order. */
  function Stat(cs: ChannelStats, e: nat): real
    requires e < |StatNames|
  {
    match e
    case 0 => cs.median
    case 1 => cs.stddev
    case 2 => cs.deltaavg
    case 3 => cs.deltamin
    case 4 => cs.deltamax
    case _ => cs.deltastd
  }

  /** Channel `c` of a poll, in `ChannelNames` order. */
  function ChannelAt(p: PollTemps, c: nat): ChannelStats
    requires c < |ChannelNames|
  {
    if c == 0 then p.t0 else if c == 1 then p.t1 else p.bed
  }

  /** Per channel, per statistic, one value per collapsed poll. */
  type Lists = seq<seq<seq<real>>>

  predicate WellShaped(l: Lists) {
    |l| == |ChannelNames| && forall c :: 0 <= c < |l| ==> |l[c]| == |StatNames|
  }

  /** The lists of a fresh accumulator: all eighteen empty. */
  function EmptyLists(): (r: Lists)
    ensures WellShaped(r)
  {
    seq(|ChannelNames|, _ => seq(|StatNames|, _ => []))
  }

  /** One channel's appends: each of its lists gets that channel's value for it. */
  function AccumulateChannel(lists: seq<seq<real>>, cs: ChannelStats): (r: seq<seq<real>>)
    requires |lists| == |StatNames|
    ensures |r| == |StatNames|
  {
    seq(|StatNames|, e requires 0 <= e < |StatNames| => lists[e] + [Stat(cs, e)])
  }

  /** The appends of `collapseStats`: every list gets the current poll's value for it. */
  function Accumulate(l: Lists, cur: PollTemps): (r: Lists)
    requires WellShaped(l)
    ensures WellShaped(r)
  {
    seq(|ChannelNames|, c requires 0 <= c < |ChannelNames| => AccumulateChannel(l[c], ChannelAt(cur, c)))
  }

  /** Collapsing one poll appends exactly one value to every list and leaves the earlier values in place. */
  lemma AccumulateAppendsOne(l: Lists, cur: PollTemps, c: nat, e: nat)
    requires WellShaped(l) && c < |ChannelNames| && e < |StatNames|
    ensures var r := Accumulate(l, cur)[c][e];
      && |r| == |l[c][e]| + 1
      && r[..|l[c][e]|] == l[c][e]
      && r[|l[c][e]|] == Stat(ChannelAt(cur, c), e)
  {
  }

  /**
   * The accumulator's invariant: every list of every channel holds one value
   * per collapsed poll, and each poll's deviation statistics are ordered.
   */
  predicate Consistent(l: Lists, polls: nat) {
    && WellShaped(l)
    && (forall c, e :: 0 <= c < |ChannelNames| && 0 <= e < |StatNames| ==> |l[c][e]| == polls)
    && (forall c, k :: 0 <= c < |ChannelNames| && 0 <= k < polls ==>
          0.0 <= l[c][DeltaMinIx][k] <= l[c][DeltaAvgIx][k] <= l[c][DeltaMaxIx][k])
  }

  lemma EmptyConsistent()
    ensures Consistent(EmptyLists(), 0)
  {
  }

  /** Collapsing a poll whose statistics are ordered keeps the invariant, one poll further on. */
  lemma AccumulateConsistent(l: Lists, polls: nat, cur: PollTemps)
    requires Consistent(l, polls)
    requires Ordered(cur.t0) && Ordered(cur.t1) && Ordered(cur.bed)
    ensures Consistent(Accumulate(l, cur), polls + 1)
  {
    var r := Accumulate(l, cur);
    forall c, k | 0 <= c < |ChannelNames| && 0 <= k < polls + 1
      ensures 0.0 <= r[c][DeltaMinIx][k] <= r[c][DeltaAvgIx][k] <= r[c][DeltaMaxIx][k]
    {
      if k == polls {
        assert Ordered(ChannelAt(cur, c));
      } else {
        assert r[c][DeltaMinIx][k] == l[c][DeltaMinIx][k];
        assert r[c][DeltaAvgIx][k] == l[c][DeltaAvgIx][k];
        assert r[c][DeltaMaxIx][k] == l[c][DeltaMaxIx][k];
      }
    }
  }

  /** The job-level figures of one channel. */
  datatype ChannelSummary = ChannelSummary(deviationAvg: real, deviationStd: real,
                                           deviationMin: real, deviationMax: real)

  /** `resultDict`, before rounding. */
  datatype JobStats = JobStats(calculationTime: real, extruder0: ChannelSummary,
                               extruder1: ChannelSummary, bed: ChannelSummary)

  /**
   * One channel's job figures: the unweighted mean of the per-poll averages
   * and standard deviations, the least per-poll minimum and the greatest
   * per-poll maximum.
   */
  function SummaryOf(lists: seq<seq<real>>): ChannelSummary
    requires |lists| == |StatNames|
    requires forall e :: 0 <= e < |StatNames| ==> lists[e] != []
  {
    ChannelSummary(Average(lists[DeltaAvgIx]), Average(lists[DeltaStdIx]),
                   Min(lists[DeltaMinIx]), Max(lists[DeltaMaxIx]))
  }

  /**
   * The job minimum is one of the per-poll minima and below all of them, the
   * job maximum likewise above, and the mean of the averages lies between
   * their least and greatest.
   */
  lemma SummaryBounds(lists: seq<seq<real>>)
    requires |lists| == |StatNames|
    requires forall e :: 0 <= e < |StatNames| ==> lists[e] != []
    ensures var r := SummaryOf(lists);
      && r.deviationMin in lists[DeltaMinIx]
      && (forall k :: 0 <= k < |lists[DeltaMinIx]| ==> r.deviationMin <= lists[DeltaMinIx][k])
      && r.deviationMax in lists[DeltaMaxIx]
      && (forall k :: 0 <= k < |lists[DeltaMaxIx]| ==> lists[DeltaMaxIx][k] <= r.deviationMax)
      && Min(lists[DeltaAvgIx]) <= r.deviationAvg <= Max(lists[DeltaAvgIx])
  {
    AverageBetweenMinAndMax(lists[DeltaAvgIx]);
  }

  /** Every list holds at least one value. */
  predicate Filled(l: Lists) {
    WellShaped(l) && forall c, e :: 0 <= c < |ChannelNames| && 0 <= e < |StatNames| ==> l[c][e] != []
  }

  function JobStatsOf(l: Lists, time: real): JobStats
    requires Filled(l)
  {
    JobStats(time, SummaryOf(l[0]), SummaryOf(l[1]), SummaryOf(l[2]))
  }

  predicate OrderedSummary(s: ChannelSummary) {
    0.0 <= s.deviationMin <= s.deviationAvg <= s.deviationMax
  }

  /**
   * With the invariant, every job figure is ordered too: the least minimum
   * is at most the mean of the averages, which is at most the greatest
   * maximum.
   */
  lemma {:induction false} SummaryOrdered(l: Lists, polls: nat, c: nat)
    requires Consistent(l, polls) && polls > 0 && c < |ChannelNames|
    ensures Filled(l)
    ensures OrderedSummary(SummaryOf(l[c]))
  {
    var mins, avgs, maxs := l[c][DeltaMinIx], l[c][DeltaAvgIx], l[c][DeltaMaxIx];
    var lo, hi := Min(mins), Max(maxs);
    forall k | 0 <= k < |avgs|
      ensures lo <= avgs[k] <= hi
    {
      assert mins[k] <= avgs[k] <= maxs[k];
    }
    AverageBetween(avgs, lo, hi);
  }

  /** One channel of a single collapsed poll: its summary is that channel's own statistics. */
  lemma SingleChannel(cs: ChannelStats)
    ensures var l := AccumulateChannel(seq(|StatNames|, _ => []), cs);
      SummaryOf(l) == ChannelSummary(cs.deltaavg, cs.deltastd, cs.deltamin, cs.deltamax)
  {
    var l := AccumulateChannel(seq(|StatNames|, _ => []), cs);
    assert l[DeltaAvgIx] == [cs.deltaavg] && l[DeltaStdIx] == [cs.deltastd];
    assert l[DeltaMinIx] == [cs.deltamin] && l[DeltaMaxIx] == [cs.deltamax];
    SingleSample(cs.deltaavg);
    SingleSample(cs.deltastd);
    SingleSample(cs.deltamin);
    SingleSample(cs.deltamax);
  }

  /** A single collapsed poll: the job figures are that poll's own statistics. */
  lemma SinglePoll(cur: PollTemps)
    ensures Filled(Accumulate(EmptyLists(), cur))
    ensures var j := JobStatsOf(Accumulate(EmptyLists(), cur), 0.0 + cur.calculationTime);
      && j.calculationTime == cur.calculationTime
      && j.extruder0 == ChannelSummary(cur.t0.deltaavg, cur.t0.deltastd, cur.t0.deltamin, cur.t0.deltamax)
      && j.extruder1 == ChannelSummary(cur.t1.deltaavg, cur.t1.deltastd, cur.t1.deltamin, cur.t1.deltamax)
      && j.bed == ChannelSummary(cur.bed.deltaavg, cur.bed.deltastd, cur.bed.deltamin, cur.bed.deltamax)
  {
    var l := Accumulate(EmptyLists(), cur);
    assert EmptyLists()[0] == EmptyLists()[1] == EmptyLists()[2] == seq(|StatNames|, _ => []);
    SingleChannel(cur.t0);
    SingleChannel(cur.t1);
    SingleChannel(cur.bed);
  }

  /**
   * The job average is a mean of per-poll means, not the mean of all
   * samples: a poll of three deviations of 1 and a poll of one deviation
   * of 4 give 2.5, while the pooled samples average 1.75.
   */
  lemma MeanOfMeansIsNotPooledMean()
    ensures Average([Average([1.0, 1.0, 1.0]), Average([4.0])]) == 2.5
    ensures Average([1.0, 1.0, 1.0, 4.0]) == 1.75
  {
    assert [1.0, 1.0, 1.0][..2] == [1.0, 1.0];
    assert [1.0, 1.0][..1] == [1.0];
    assert [1.0][..0] == [];
    assert Sum([1.0, 1.0, 1.0]) == 3.0;
    assert Sum([4.0]) == 4.0 by { assert [4.0][..0] == []; }
    assert [1.0, 1.0, 1.0, 4.0][..3] == [1.0, 1.0, 1.0];
    assert Sum([1.0, 1.0, 1.0, 4.0]) == 7.0;
    assert [1.0, 4.0][..1] == [1.0];
    assert [2.5][..0] == [] && Sum([1.0, 4.0]) == 5.0;
  }

  /** `collapseStats` on `{}`: the first channel lookup raises KeyError before anything is appended. */
  datatype CollapseError = TempsMissing

  /**
   * The running per-job accumulator `tstats`: eighteen statistic lists and
   * the summed calculation time. `collapseStats` updates it in place.
   */
  class TempAccumulator {
    var lists: Lists
    var calculationTime: real
    /** How many polls have been collapsed into the lists. */
    ghost var polls: nat

    ghost predicate Valid()
      reads this
    {
      Consistent(lists, polls)
    }

    /** `setupStats`: every list empty, no time accumulated. */
    constructor ()
      ensures Valid() && polls == 0
      ensures lists == EmptyLists() && calculationTime == 0.0
    {
      lists := EmptyLists();
      calculationTime := 0.0;
      polls := 0;
      EmptyConsistent();
    }

    /**
     * `collapseStats`: append the poll's value to every list, add its time
     * span, and summarise the job so far. On `{}` nothing changes.
     */
    method Collapse(cur: Option<PollTemps>) returns (r: Result<JobStats, CollapseError>)
      requires Valid()
      requires cur.Some? ==> Ordered(cur.value.t0) && Ordered(cur.value.t1) && Ordered(cur.value.bed)
      modifies this
      ensures Valid()
      ensures Filled(lists) || cur.None?
      ensures cur.None? ==> r == Err(TempsMissing) && unchanged(this)
      ensures cur.Some? ==>
        && polls == old(polls) + 1
        && lists == Accumulate(old(lists), cur.value)
        && calculationTime == old(calculationTime) + cur.value.calculationTime
        && r == Ok(JobStatsOf(lists, calculationTime))
      ensures r.Ok? ==>
        OrderedSummary(r.value.extruder0) && OrderedSummary(r.value.extruder1) && OrderedSummary(r.value.bed)
    {
      if cur.None? {
        return Err(TempsMissing);
      }
      var p := cur.value;
      var before := lists;
      var acc := lists;
      AccumulateConsistent(before, polls, p);
      for c := 0 to |ChannelNames|
        invariant |acc| == |ChannelNames|
        invariant forall c' :: 0 <= c' < c ==> acc[c'] == AccumulateChannel(before[c'], ChannelAt(p, c'))
        invariant forall c' :: c <= c' < |ChannelNames| ==> acc[c'] == before[c']
      {
        var channel := acc[c];
        for e := 0 to |StatNames|
          invariant |channel| == |StatNames|
          invariant forall e' :: 0 <= e' < e ==> channel[e'] == before[c][e'] + [Stat(ChannelAt(p, c), e')]
          invariant forall e' :: e <= e' < |StatNames| ==> channel[e'] == before[c][e']
        {
          channel := channel[e := channel[e] + [Stat(ChannelAt(p, c), e)]];
        }
        acc := acc[c := channel];
      }
      assert acc == Accumulate(before, p);
      lists := acc;
      calculationTime := calculationTime + p.calculationTime;
      polls := polls + 1;
      SummaryOrdered(lists, polls, 0);
      SummaryOrdered(lists, polls, 1);
      SummaryOrdered(lists, polls, 2);
      r := Ok(JobStatsOf(lists, calculationTime));
    }
  }

  // ---------------------------------------------------------- statusCheck

  /** A `current`/`target` temperature pair as the printer reports it. */
  datatype Temps = Temps(current: real, target: real)

  /** The part of the `printer/heads/0` reply the job parameters read: both hotends' temperatures. */
  datatype HeadTemps = HeadTemps(extruder1: Temps, extruder2: Temps)

  /** The `print_job` reply; times are in seconds, progress is a fraction. */
  datatype PrintJobReply = PrintJobReply(name: string, datetimeStarted: string, source: string,
                                         sourceUser: string, uuid: string, timeElapsed: real,
                                         timeTotal: real, progress: real, state: string)

  /** `JobParameters`: times in hours, progress in percent. */
  datatype JobParameters = JobParameters(
    name: string, timeStart: string, source: string, username: string, uuid: string,
    bedTemp: real, bedTempSetp: real, extruder1Temp: real, extruder1Setp: real,
    extruder2Temp: real, extruder2Setp: real,
    elapsedTime: real, estimatedDuration: real, jobState: string, progress: real)

  /** Where the printing branch of `statusCheck` raises, in the order it would. */
  datatype StatusError =
    | HeadUnavailable    // headinfo is {} but the bed answered: KeyError on headinfo['extruders']
    | JobUnavailable     // print_job answered {}: KeyError on printjob['name']
    | BedUnavailable     // bed temperature answered {}: KeyError on bedtemp['current']

  /**
   * The JobParameters section of `statusCheck`: absent unless the status is
   * "printing"; otherwise built from the bed, head and print_job replies
   * (None where the reply was `{}`).
   */
  function JobParametersOf(status: string, bed: Option<Temps>, head: Option<HeadTemps>,
                           job: Option<PrintJobReply>): (r: Result<Option<JobParameters>, StatusError>)
    ensures status != "printing" ==> r == Ok(None)
    ensures status == "printing" ==>
      (r.Ok? <==> bed.Some? && head.Some? && job.Some?) && (r.Ok? ==> r.value.Some?)
    ensures r.Ok? && r.value.Some? ==>
      var jp := r.value.value;
      && jp.progress == job.value.progress * 100.0
      && jp.elapsedTime * 3600.0 == job.value.timeElapsed
      && jp.estimatedDuration * 3600.0 == job.value.timeTotal
      && jp.uuid == job.value.uuid && jp.name == job.value.name && jp.jobState == job.value.state
      && jp.bedTemp == bed.value.current && jp.bedTempSetp == bed.value.target
  {
    if status != "printing" then Ok(None)
    else if bed.Some? && head.None? then Err(HeadUnavailable)
    else if job.None? then Err(JobUnavailable)
    else if bed.None? then Err(BedUnavailable)
    else
      var j := job.value;
      var h := head.value;
      Ok(Some(JobParameters(
        j.name, j.datetimeStarted, j.source, j.sourceUser, j.uuid,
        bed.value.current, bed.value.target,
        h.extruder1.current, h.extruder1.target, h.extruder2.current, h.extruder2.target,
        j.timeElapsed / 60.0 / 60.0, j.timeTotal / 60.0 / 60.0, j.state, j.progress * 100.0)))
  }

  /** A job whose progress fraction lies in [0, 1] reports a percentage in [0, 100]. */
  lemma ProgressPercent(bed: Temps, head: HeadTemps, job: PrintJobReply)
    requires 0.0 <= job.progress <= 1.0
    ensures var r := JobParametersOf("printing", Some(bed), Some(head), Some(job));
      r.Ok? && r.value.Some? && 0.0 <= r.value.value.progress <= 100.0
      && (job.progress == 1.0 <==> r.value.value.progress == 100.0)
  {
  }

  // ---------------------------------------------------------- getMaterial

  /** The `metadata/name` element of a material's XML description. */
  datatype MaterialMeta = MaterialMeta(brand: string, material: string, color: string)

  /** The `properties` element of a material's XML description. */
  datatype MaterialProps = MaterialProps(diameter: string, density: string)

  const Unknown: string := "UNKNOWN"

  /** "name brand colour (diameter mm, density g/cm^3)": the two `%` formats of `getMaterial`, one after the other. */
  function Describe(name: string, brand: string, color: string, diameter: string, density: string): (r: string)
    ensures r == name + " " + brand + " " + color + " (" + diameter + " mm, " + density + " g/cm^3)"
  {
    var material := name + " " + brand + " " + color;
    material + (" (" + diameter + " mm, " + density + " g/cm^3)")
  }

  /** The three words of "name brand colour" read back between their spaces. */
  lemma MaterialWordsReadBack(name: string, brand: string, color: string)
    ensures var h := name + " " + brand + " " + color;
      var b := |name| + 1;
      var c := b + |brand| + 1;
      && |h| == c + |color|
      && h[..|name|] == name && h[|name|] == ' '
      && h[b..b + |brand|] == brand && h[b + |brand|] == ' '
      && h[c..] == color
  {
    var h := name + " " + brand + " " + color;
    var b := |name| + 1;
    assert h == name + (" " + (brand + (" " + color)));
    assert h[b..] == brand + (" " + color);
  }

  /** The name, brand and colour sit at known places at the front of the description. */
  lemma DescribeMetaReadBack(name: string, brand: string, color: string, diameter: string, density: string)
    ensures var r := Describe(name, brand, color, diameter, density);
      var b := |name| + 1;
      var c := b + |brand| + 1;
      && c + |color| + 2 <= |r|
      && r[..|name|] == name && r[|name|] == ' '
      && r[b..b + |brand|] == brand && r[b + |brand|] == ' '
      && r[c..c + |color|] == color && r[c + |color|..c + |color| + 2] == " ("
  {
    var r := Describe(name, brand, color, diameter, density);
    var h := name + " " + brand + " " + color;
    var tail := " (" + diameter + " mm, " + density + " g/cm^3)";
    assert r == h + tail;
    MaterialWordsReadBack(name, brand, color);
    assert r[..|h|] == h;
    assert r[|h|..] == tail;
  }

  /** The diameter and density sit at known places after the colour, and the description ends with the density's unit. */
  lemma DescribePropsReadBack(name: string, brand: string, color: string, diameter: string, density: string)
    ensures var r := Describe(name, brand, color, diameter, density);
      var d := |name| + |brand| + |color| + 4;
      var e := d + |diameter| + 5;
      && |r| == e + |density| + 8
      && r[d..d + |diameter|] == diameter && r[d + |diameter|..e] == " mm, "
      && r[e..e + |density|] == density && r[e + |density|..] == " g/cm^3)"
  {
    var r := Describe(name, brand, color, diameter, density);
    var d := |name| + |brand| + |color| + 4;
    var e := d + |diameter| + 5;
    var head := name + " " + brand + " " + color + " (";
    assert |head| == d;
    assert r == head + (diameter + " mm, " + (density + " g/cm^3)"));
    assert r[d..] == diameter + " mm, " + (density + " g/cm^3)");
    assert r[e..] == density + " g/cm^3)";
  }

  /**
   * `getMaterial`: the description, with "UNKNOWN" for the name, brand and
   * colour when the metadata could not be read, and for the diameter and
   * density when the properties could not be read.
   */
  function GetMaterial(meta: Option<MaterialMeta>, prop: Option<MaterialProps>): (r: string)
    ensures meta.Some? ==> Text.StartsWith(r, meta.value.material + " " + meta.value.brand + " " + meta.value.color + " (")
    ensures meta.None? ==> Text.StartsWith(r, Unknown + " " + Unknown + " " + Unknown + " (")
    ensures |r| >= 8 && r[|r| - 8..] == " g/cm^3)"
  {
    var (name, brand, color) := match meta
      case Some(m) => (m.material, m.brand, m.color)
      case None => (Unknown, Unknown, Unknown);
    var (diameter, density) := match prop
      case Some(p) => (p.diameter, p.density)
      case None => (Unknown, Unknown);
    Text.PrefixStartsWith(name + " " + brand + " " + color + " (", diameter + " mm, " + density + " g/cm^3)");
    Describe(name, brand, color, diameter, density)
  }

  /** The description is `Describe` of the parsed fields, each of them "UNKNOWN" where its element could not be read. */
  lemma MaterialIsDescribe(meta: Option<MaterialMeta>, prop: Option<MaterialProps>)
    ensures GetMaterial(meta, prop)
         == Describe(if meta.Some? then meta.value.material else Unknown,
                     if meta.Some? then meta.value.brand else Unknown,
                     if meta.Some? then meta.value.color else Unknown,
                     if prop.Some? then prop.value.diameter else Unknown,
                     if prop.Some? then prop.value.density else Unknown)
  {
  }

  /** The name, brand and colour read back from the description: the metadata's, or "UNKNOWN" without it. */
  lemma MaterialMetaReadBack(meta: Option<MaterialMeta>, prop: Option<MaterialProps>)
    ensures var name := if meta.Some? then meta.value.material else Unknown;
      var brand := if meta.Some? then meta.value.brand else Unknown;
      var color := if meta.Some? then meta.value.color else Unknown;
      var r := GetMaterial(meta, prop);
      var b := |name| + 1;
      var c := b + |brand| + 1;
      && c + |color| <= |r|
      && r[..|name|] == name
      && r[b..b + |brand|] == brand
      && r[c..c + |color|] == color
  {
    var name := if meta.Some? then meta.value.material else Unknown;
    var brand := if meta.Some? then meta.value.brand else Unknown;
    var color := if meta.Some? then meta.value.color else Unknown;
    var diameter := if prop.Some? then prop.value.diameter else Unknown;
    var density := if prop.Some? then prop.value.density else Unknown;
    MaterialIsDescribe(meta, prop);
    var r := Describe(name, brand, color, diameter, density);
    assert GetMaterial(meta, prop) == r;
    DescribeMetaReadBack(name, brand, color, diameter, density);
  }

  /**
   * The diameter and density read back from the description, after the
   * metadata part: the properties', or "UNKNOWN" without them, whatever the
   * metadata was.
   */
  lemma MaterialPropsReadBack(meta: Option<MaterialMeta>, prop: Option<MaterialProps>)
    ensures var diameter := if prop.Some? then prop.value.diameter else Unknown;
      var density := if prop.Some? then prop.value.density else Unknown;
      var r := GetMaterial(meta, prop);
      var d := if meta.Some? then |meta.value.material| + |meta.value.brand| + |meta.value.color| + 4 else 25;
      var e := d + |diameter| + 5;
      && |r| == e + |density| + 8
      && r[d..d + |diameter|] == diameter
      && r[e..e + |density|] == density
  {
    var name := if meta.Some? then meta.value.material else Unknown;
    var brand := if meta.Some? then meta.value.brand else Unknown;
    var color := if meta.Some? then meta.value.color else Unknown;
    var diameter := if prop.Some? then prop.value.diameter else Unknown;
    var density := if prop.Some? then prop.value.density else Unknown;
    MaterialIsDescribe(meta, prop);
    var r := Describe(name, brand, color, diameter, density);
    assert GetMaterial(meta, prop) == r;
    assert |name| + |brand| + |color| + 4 == (if meta.Some? then |meta.value.material| + |meta.value.brand| + |meta.value.color| + 4 else 25);
    DescribePropsReadBack(name, brand, color, diameter, density);
  }
}

/**
 * printzini.py: the older, inline poll loop. It tracks the job by UUID,
 * resets a five-flag ledger and the temperature accumulator for a new job,
 * collects temperature statistics while 0.5 < progress < 100, runs its own
 * ladder, and picks the LED status. Variables the loop carries from one pass
 * to the next (`curProg`, `deets`, `strStatus`, `tstats`, `notices`) are
 * unbound until first assigned; reading one of them then raises NameError,
 * which is an error outcome here. Configuration, printing, sleeping and the
 * SMTP hand-off are not modelled.
 */
module PrintziniLegacy {
  import opened Wrappers
  import Text
  import Printer
  import Clausius
  import Monitoring
  import StatusTables

  /** This loop's ledger: five flags, no preamble. */
  const FreshLegacyLedger: map<string, bool> := map[
    "start" := false,
    "done10" := false,
    "done50" := false,
    "done90" := false,
    "end" := false]

  predicate IsLegacyLedger(n: map<string, bool>)
  {
    n.Keys == FreshLegacyLedger.Keys
  }

  /** Status word -> palette colour name, as this loop has it: no entry for "wait_user_action". */
  const LegacyStatusColors: map<string, string> := map[
    "idle" := "PrussianBlue",
    "printing" := "TitaniumWhite",
    "pausing" := "IndianYellow",
    "paused" := "CadmiumYellow",
    "resuming" := "IndianYellow",
    "pre_print" := "SapGreen",
    "post_print" := "BrightBlue",
    "wait_cleanup" := "BrightGreen",
    "error" := "BrightRed",
    "maintenance" := "CadmiumYellow",
    "booting" := "PhthaloGreen"]

  /** The table is the launcher's table without "wait_user_action", whose LED lookup therefore raises here. */
  lemma LegacyColorsLackWaitUserAction()
    ensures "wait_user_action" !in LegacyStatusColors
    ensures forall s :: s in LegacyStatusColors ==>
      s in StatusTables.StatusColors && LegacyStatusColors[s] == StatusTables.StatusColors[s]
    ensures StatusTables.StatusColors.Keys == LegacyStatusColors.Keys + {"wait_user_action"}
  {
  }

  /** The detail text of a notice: the setup status text, or the job's temperature figures (`formatStatus` is not modelled). */
  datatype Details = StatusText(text: string) | TempSummary(stats: Printer.JobStats)

  datatype LegacyNotice = LegacyNotice(milestone: Monitoring.Milestone, jobId: string, jobName: string, details: Details)

  datatype LegacyError =
    | CurProgUnbound               // prevProg = curProg before any printing pass: NameError
    | DeetsUnbound                 // the end branch prints deets before any in-progress pass: NameError
    | TempsFailed(e: Printer.TempError)
    | NoTemps                      // tempStats gave {}: collapseStats raises KeyError

  /** The temperature accumulator as the loop holds it between passes. */
  datatype Accum = Accum(lists: Printer.Lists, calculationTime: real)

  datatype LegacyState = LegacyState(
    tracked: Monitoring.TrackedId,
    notices: Option<map<string, bool>>,
    tstats: Option<Accum>,
    strStatus: Option<string>,
    curProg: Option<real>,
    prevProg: real,
    deets: Option<Details>)

  /** A tracked job has its ledger, accumulator and status text; `curProg` is bound from the first printing pass on. */
  predicate ValidLegacy(s: LegacyState)
  {
    && (s.tracked.Tracked? <==> s.notices.Some?)
    && (s.tracked.Tracked? <==> s.tstats.Some?)
    && (s.tracked.Tracked? <==> s.strStatus.Some?)
    && (s.tracked.Tracked? ==> s.curProg.Some?)
    && (s.notices.Some? ==> IsLegacyLedger(s.notices.value))
    && (s.tstats.Some? ==> Printer.WellShaped(s.tstats.value.lists))
  }

  /** Before the first pass: the sentinel job, prevProg -9999, everything else unbound. */
  const LegacyInitial: LegacyState := LegacyState(Monitoring.Sentinel8675309, None, None, None, None, -9999.0, None)

  /** What `statusCheck`, `formatStatus` and the diagnostics query give this pass. */
  datatype LegacyInput = LegacyInput(status: string, job: Option<Printer.JobParameters>, statusText: string,
                                     flow: Printer.FlowQuery)

  predicate WellFormedInput(input: LegacyInput)
  {
    input.status == "printing" <==> input.job.Some?
  }

  /** The in-progress ladder: the first of start, done10, done50, done90 that is reached and unset. */
  function LegacyLadder(n: map<string, bool>, p: real): (r: Option<Monitoring.Milestone>)
    requires IsLegacyLedger(n)
    ensures r.Some? ==> r.value != Monitoring.End
    ensures r.Some? ==> Monitoring.Reached(r.value, p) && !n[Monitoring.Key(r.value)]
    ensures r.Some? ==> forall m :: Monitoring.Rank(m) < Monitoring.Rank(r.value) ==>
      !(Monitoring.Reached(m, p) && !n[Monitoring.Key(m)])
    ensures r.None? ==> forall m :: m != Monitoring.End ==> !(Monitoring.Reached(m, p) && !n[Monitoring.Key(m)])
  {
    if p >= 0.0 && !n["start"] then Some(Monitoring.Start)
    else if p >= 10.0 && !n["done10"] then Some(Monitoring.Done10)
    else if p >= 50.0 && !n["done50"] then Some(Monitoring.Done50)
    else if p >= 90.0 && !n["done90"] then Some(Monitoring.Done90)
    else None
  }

  datatype LegacyStep = LegacyStep(state: LegacyState, ledStatus: string, notice: Option<LegacyNotice>)

  /** The bookkeeping of a printing pass once the job is known: ledger, accumulator and detail text. */
  datatype Progress = Progress(notices: map<string, bool>, tstats: Accum, deets: Option<Details>,
                               noteKey: Option<Monitoring.Milestone>)

  /** The progress branches of a printing pass (lines 134-183). */
  function ProgressBranch(n: map<string, bool>, acc: Accum, strStatus: string, deets: Option<Details>,
                          cur: real, prevProg: real, flow: Printer.FlowQuery,
                          median: seq<real> -> real, std: seq<real> -> real): (r: Result<Progress, LegacyError>)
    requires IsLegacyLedger(n) && Printer.WellShaped(acc.lists)
    ensures r.Ok? ==> Printer.WellShaped(r.value.tstats.lists) && r.value.notices == n
    ensures r.Ok? && r.value.noteKey.Some? ==> r.value.deets.Some?
    ensures !(0.5 < cur < 100.0) ==> r.Ok? || r == Err(DeetsUnbound)
    ensures 0.5 < cur < 100.0 && r.Ok? ==> r.value.noteKey == LegacyLadder(n, cur)
    ensures cur == 100.0 ==> (r.Ok? && r.value.noteKey.Some? <==> !n["end"] && deets.Some?)
    ensures cur == 100.0 && r.Ok? && r.value.noteKey.Some? ==> r.value.noteKey == Some(Monitoring.End) && r.value.deets == deets
    ensures cur <= 0.5 ==> r.Ok? && r.value.noteKey.None? && r.value.tstats == acc
    ensures cur > 100.0 ==> r.Ok? && r.value.noteKey.None? && r.value.tstats == acc
  {
    if 0.5 < cur < 100.0 then
      match Printer.TempStatsOf(flow, median, std)
      case Err(e) => Err(TempsFailed(e))
      case Ok(None) => Err(NoTemps)
      case Ok(Some(p)) => Collected(n, acc, strStatus, cur, p)
    else if cur == 100.0 && !n["end"] then
      if deets.None? then Err(DeetsUnbound)
      else Ok(Progress(n, acc, deets, Some(Monitoring.End)))
    else
      // Also the "already complete" branch (prevProg -9999 or 100): it only logs.
      Ok(Progress(n, acc, deets, None))
  }

  /**
   * An in-progress pass once the poll's statistics `p` are in: they are
   * collapsed into the accumulator, and the notice, if any, is the ladder's;
   * its detail text is the setup status for start and the job's temperature
   * figures otherwise.
   */
  function Collected(n: map<string, bool>, acc: Accum, strStatus: string, cur: real, p: Printer.PollTemps)
    : (r: Result<Progress, LegacyError>)
    requires IsLegacyLedger(n) && Printer.WellShaped(acc.lists)
    ensures r.Ok? && Printer.WellShaped(r.value.tstats.lists) && r.value.notices == n && r.value.deets.Some?
    ensures Printer.Filled(r.value.tstats.lists)
    ensures r.value.noteKey == LegacyLadder(n, cur)
  {
    AccumulateFills(acc.lists, p);
    var lists := Printer.Accumulate(acc.lists, p);
    var time := acc.calculationTime + p.calculationTime;
    var key := LegacyLadder(n, cur);
    var summary := Printer.JobStatsOf(lists, time);
    var details := if key == Some(Monitoring.Start) then StatusText(strStatus) else TempSummary(summary);
    Ok(Progress(n, Accum(lists, time), Some(details), key))
  }

  /** `Collected`, given the job figures the accumulator reports after the poll. */
  lemma CollectedFromSummary(n: map<string, bool>, acc: Accum, strStatus: string, cur: real, p: Printer.PollTemps,
                             summary: Printer.JobStats)
    requires IsLegacyLedger(n) && Printer.WellShaped(acc.lists)
    requires Printer.Filled(Printer.Accumulate(acc.lists, p))
    requires summary == Printer.JobStatsOf(Printer.Accumulate(acc.lists, p), acc.calculationTime + p.calculationTime)
    ensures var key := LegacyLadder(n, cur);
      Collected(n, acc, strStatus, cur, p)
      == Ok(Progress(n, Accum(Printer.Accumulate(acc.lists, p), acc.calculationTime + p.calculationTime),
                     Some(if key == Some(Monitoring.Start) then StatusText(strStatus) else TempSummary(summary)), key))
  {
    var key := LegacyLadder(n, cur);
    var lists := Printer.Accumulate(acc.lists, p);
    var time := acc.calculationTime + p.calculationTime;
    assert Collected(n, acc, strStatus, cur, p)
        == Ok(Progress(n, Accum(lists, time),
                       Some(if key == Some(Monitoring.Start) then StatusText(strStatus) else TempSummary(summary)), key));
  }

  /** Appending one value to every list leaves none empty. */
  lemma AccumulateFills(l: Printer.Lists, p: Printer.PollTemps)
    requires Printer.WellShaped(l)
    ensures Printer.Filled(Printer.Accumulate(l, p))
  {
    forall c, e | 0 <= c < |Printer.ChannelNames| && 0 <= e < |Printer.StatNames|
      ensures Printer.Accumulate(l, p)[c][e] != []
    {
      Printer.AccumulateAppendsOne(l, p, c, e);
    }
  }

  /** One pass of the loop. */
  function LegacySpec(s: LegacyState, input: LegacyInput, median: seq<real> -> real, std: seq<real> -> real)
    : (r: Result<LegacyStep, LegacyError>)
    requires ValidLegacy(s) && WellFormedInput(input)
    ensures r.Ok? ==> ValidLegacy(r.value.state)
    ensures input.status != "printing" ==>
      && (r.Err? <==> s.curProg.None?)
      && (r.Err? ==> r.error == CurProgUnbound)
      && (r.Ok? ==> r.value.state == s.(prevProg := s.curProg.value) && r.value.ledStatus == input.status
                    && r.value.notice.None?)
    ensures input.status == "printing" && r.Ok? ==>
      && r.value.state.tracked == Monitoring.Tracked(input.job.value.uuid)
      && r.value.state.curProg == Some(input.job.value.progress)
      && r.value.state.prevProg == input.job.value.progress
      && r.value.ledStatus == input.job.value.jobState
  {
    if input.status != "printing" then
      if s.curProg.None? then Err(CurProgUnbound)
      else Ok(LegacyStep(s.(prevProg := s.curProg.value), input.status, None))
    else
      PrintingSpec(s, input.job.value, input.statusText, input.flow, median, std)
  }

  /** The job the loop tracks next, its ledger, accumulator and setup status text. */
  function JobOf(s: LegacyState, jp: Printer.JobParameters, statusText: string)
    : (r: (map<string, bool>, Accum, string))
    requires ValidLegacy(s)
    ensures IsLegacyLedger(r.0) && Printer.WellShaped(r.1.lists)
    ensures s.tracked != Monitoring.Tracked(jp.uuid) ==>
      r == (FreshLegacyLedger, Accum(Printer.EmptyLists(), 0.0), statusText)
    ensures s.tracked == Monitoring.Tracked(jp.uuid) ==>
      r == (s.notices.value, s.tstats.value, s.strStatus.value)
  {
    if s.tracked != Monitoring.Tracked(jp.uuid) then (FreshLegacyLedger, Accum(Printer.EmptyLists(), 0.0), statusText)
    else (s.notices.value, s.tstats.value, s.strStatus.value)
  }

  /** A printing pass (lines 77-213). */
  function PrintingSpec(s: LegacyState, jp: Printer.JobParameters, statusText: string, flow: Printer.FlowQuery,
                        median: seq<real> -> real, std: seq<real> -> real): (r: Result<LegacyStep, LegacyError>)
    requires ValidLegacy(s)
    ensures r.Ok? ==> ValidLegacy(r.value.state)
    ensures r.Ok? ==>
      && r.value.state.tracked == Monitoring.Tracked(jp.uuid)
      && r.value.state.curProg == Some(jp.progress)
      && r.value.state.prevProg == jp.progress
      && r.value.ledStatus == jp.jobState
  {
    var (n, acc, strStatus) := JobOf(s, jp, statusText);
    match ProgressBranch(n, acc, strStatus, s.deets, jp.progress, s.prevProg, flow, median, std)
    case Err(e) => Err(e)
    case Ok(pr) => Ok(Committed(jp, strStatus, pr))
  }

  /** The ledger flag set, the notice built, and the loop variables bound after a printing pass. */
  function Committed(jp: Printer.JobParameters, strStatus: string, pr: Progress): (r: LegacyStep)
    requires IsLegacyLedger(pr.notices) && Printer.WellShaped(pr.tstats.lists)
    requires pr.noteKey.Some? ==> pr.deets.Some?
    ensures ValidLegacy(r.state) && r.state.notices.Some?
    ensures r.notice.Some? <==> pr.noteKey.Some?
    ensures r.notice.Some? ==> r.notice.value.milestone == pr.noteKey.value
                               && r.state.notices.value[Monitoring.Key(pr.noteKey.value)]
  {
    var ledger := if pr.noteKey.Some? then pr.notices[Monitoring.Key(pr.noteKey.value) := true] else pr.notices;
    var notice := if pr.noteKey.Some?
      then Some(LegacyNotice(pr.noteKey.value, Text.BeforeFirst(jp.uuid, '-'), jp.name, pr.deets.value))
      else None;
    LegacyStep(
      LegacyState(Monitoring.Tracked(jp.uuid), Some(ledger), Some(pr.tstats), Some(strStatus),
                  Some(jp.progress), jp.progress, pr.deets),
      jp.jobState, notice)
  }

  /** The loop's variables between passes. */
  class Printzini {
    var tracked: Monitoring.TrackedId
    var notices: Option<map<string, bool>>
    var tstats: Printer.TempAccumulator?
    var strStatus: Option<string>
    var curProg: Option<real>
    var prevProg: real
    var deets: Option<Details>

    function State(): LegacyState
      reads this, tstats
    {
      LegacyState(tracked, notices,
                  if tstats == null then None else Some(Accum(tstats.lists, tstats.calculationTime)),
                  strStatus, curProg, prevProg, deets)
    }

    ghost predicate Valid()
      reads this, tstats
    {
      && (tstats != null ==> tstats.Valid())
      && ValidLegacy(State())
    }

    /** The initial parameters: the sentinel job and prevProg -9999. */
    constructor ()
      ensures State() == LegacyInitial
      ensures Valid()
    {
      tracked := Monitoring.Sentinel8675309;
      notices := None;
      tstats := null;
      strStatus := None;
      curProg := None;
      prevProg := -9999.0;
      deets := None;
    }

    /**
     * One pass of the loop, returning the LED status and the notice to mail.
     * A raised error ends the loop; the state is then left as it was.
     */
    method Poll(input: LegacyInput, median: seq<real> -> real, std: seq<real> -> real)
      returns (r: Result<(string, Option<LegacyNotice>), LegacyError>)
      requires Valid() && WellFormedInput(input)
      modifies this, tstats
      ensures Valid()
      ensures LegacySpec(old(State()), input, median, std).Ok? ==>
        var step := LegacySpec(old(State()), input, median, std).value;
        r == Ok((step.ledStatus, step.notice)) && State() == step.state
      ensures LegacySpec(old(State()), input, median, std).Err? ==>
        r == Err(LegacySpec(old(State()), input, median, std).error) && State() == old(State())
    {
      if input.status != "printing" {
        if curProg.None? {
          return Err(CurProgUnbound);
        }
        prevProg := curProg.value;
        return Ok((input.status, None));
      }
      r := PollPrinting(input.job.value, input.statusText, input.flow, median, std);
    }

    /** A printing pass: the job's ledger and accumulator, the progress branches, then the commit. */
    method PollPrinting(jp: Printer.JobParameters, statusText: string, flow: Printer.FlowQuery,
                        median: seq<real> -> real, std: seq<real> -> real)
      returns (r: Result<(string, Option<LegacyNotice>), LegacyError>)
      requires Valid()
      modifies this, tstats
      ensures Valid()
      ensures PrintingSpec(old(State()), jp, statusText, flow, median, std).Ok? ==>
        var step := PrintingSpec(old(State()), jp, statusText, flow, median, std).value;
        r == Ok((step.ledStatus, step.notice)) && State() == step.state
      ensures PrintingSpec(old(State()), jp, statusText, flow, median, std).Err? ==>
        r == Err(PrintingSpec(old(State()), jp, statusText, flow, median, std).error) && State() == old(State())
    {
      ghost var before := State();
      var isNew := tracked != Monitoring.Tracked(jp.uuid);
      var ledger := if isNew then FreshLegacyLedger else notices.value;
      var status := if isNew then statusText else strStatus.value;
      ghost var job := JobOf(before, jp, statusText);
      assert job.0 == ledger && job.2 == status;
      // A new job gets a fresh accumulator (`setupStats`).
      var box: Printer.TempAccumulator;
      if isNew {
        box := new Printer.TempAccumulator();
      } else {
        box := tstats;
      }
      assert Accum(box.lists, box.calculationTime) == job.1;
      var progress := Advance(box, ledger, status, deets, jp.progress, prevProg, flow, median, std);
      if progress.Err? {
        return Err(progress.error);
      }
      var pr := progress.value;
      assert PrintingSpec(before, jp, statusText, flow, median, std) == Ok(Committed(jp, status, pr));
      r := Commit(box, jp, status, pr);
    }

    /** The ledger flag set, the notice built, and the loop variables bound (lines 186-213). */
    method Commit(box: Printer.TempAccumulator, jp: Printer.JobParameters, status: string, pr: Progress)
      returns (r: Result<(string, Option<LegacyNotice>), LegacyError>)
      requires box.Valid() && Accum(box.lists, box.calculationTime) == pr.tstats
      requires IsLegacyLedger(pr.notices) && Printer.WellShaped(pr.tstats.lists)
      requires pr.noteKey.Some? ==> pr.deets.Some?
      modifies this
      ensures Valid()
      ensures var step := Committed(jp, status, pr);
        r == Ok((step.ledStatus, step.notice)) && State() == step.state
    {
      var ledger := pr.notices;
      var notice: Option<LegacyNotice> := None;
      if pr.noteKey.Some? {
        ledger := ledger[Monitoring.Key(pr.noteKey.value) := true];
        notice := Some(LegacyNotice(pr.noteKey.value, Text.BeforeFirst(jp.uuid, '-'), jp.name, pr.deets.value));
      }
      tstats := box;
      tracked := Monitoring.Tracked(jp.uuid);
      notices := Some(ledger);
      strStatus := Some(status);
      deets := pr.deets;
      curProg := Some(jp.progress);
      prevProg := jp.progress;
      r := Ok((jp.jobState, notice));
    }
  }

  /**
   * The progress branches of a printing pass on the job's accumulator: while
   * 0.5 < progress < 100 the poll's statistics are collapsed into it and the
   * ladder is consulted; at 100 the end notice fires once. A raised error
   * leaves the accumulator as it was.
   */
  method Advance(box: Printer.TempAccumulator, n: map<string, bool>, strStatus: string, deets: Option<Details>,
                 cur: real, prevProg: real, flow: Printer.FlowQuery,
                 median: seq<real> -> real, std: seq<real> -> real)
    returns (r: Result<Progress, LegacyError>)
    requires box.Valid() && IsLegacyLedger(n)
    modifies box
    ensures box.Valid()
    ensures r == ProgressBranch(n, Accum(old(box.lists), old(box.calculationTime)), strStatus, deets,
                                cur, prevProg, flow, median, std)
    ensures r.Ok? ==> Accum(box.lists, box.calculationTime) == r.value.tstats
    ensures r.Err? ==> unchanged(box)
  {
    if 0.5 < cur < 100.0 {
      var temps := Printer.TempStats(flow, median, std);
      if temps.Err? {
        return Err(TempsFailed(temps.error));
      }
      if temps.value.None? {
        return Err(NoTemps);
      }
      Clausius.TempStatsOrdered(flow, median, std);
      r := CollectPoll(box, n, strStatus, cur, temps.value.value);
    } else if cur == 100.0 && !n["end"] {
      if deets.None? {
        return Err(DeetsUnbound);
      }
      r := Ok(Progress(n, Accum(box.lists, box.calculationTime), deets, Some(Monitoring.End)));
    } else {
      r := Ok(Progress(n, Accum(box.lists, box.calculationTime), deets, None));
    }
  }

  /**
   * An in-progress pass once the poll's statistics are in: `collapseStats`
   * on the job's accumulator, then the ladder.
   */
  method CollectPoll(box: Printer.TempAccumulator, n: map<string, bool>, strStatus: string, cur: real,
                     p: Printer.PollTemps)
    returns (r: Result<Progress, LegacyError>)
    requires box.Valid() && IsLegacyLedger(n)
    requires Printer.Ordered(p.t0) && Printer.Ordered(p.t1) && Printer.Ordered(p.bed)
    modifies box
    ensures box.Valid()
    ensures r == Collected(n, Accum(old(box.lists), old(box.calculationTime)), strStatus, cur, p)
    ensures Accum(box.lists, box.calculationTime) == r.value.tstats
  {
    ghost var acc := Accum(box.lists, box.calculationTime);
    ghost var lists := Printer.Accumulate(acc.lists, p);
    ghost var time := acc.calculationTime + p.calculationTime;
    var dstats := box.Collapse(Some(p));
    assert box.lists == lists && box.calculationTime == time;
    var summary := dstats.value;
    assert summary == Printer.JobStatsOf(lists, time);
    var key := LegacyLadder(n, cur);
    var details := if key == Some(Monitoring.Start) then StatusText(strStatus) else TempSummary(summary);
    CollectedFromSummary(n, acc, strStatus, cur, p, summary);
    r := Ok(Progress(n, Accum(box.lists, box.calculationTime), Some(details), key));
  }

  /** A new job resets the ledger and the accumulator: at progress up to 0.5 both come out empty. */
  lemma NewJobResets(s: LegacyState, input: LegacyInput, median: seq<real> -> real, std: seq<real> -> real)
    requires ValidLegacy(s) && WellFormedInput(input) && input.status == "printing"
    requires s.tracked != Monitoring.Tracked(input.job.value.uuid)
    requires input.job.value.progress <= 0.5
    ensures LegacySpec(s, input, median, std).Ok?
    ensures var st := LegacySpec(s, input, median, std).value.state;
      && st.notices == Some(FreshLegacyLedger)
      && st.tstats == Some(Accum(Printer.EmptyLists(), 0.0))
      && st.strStatus == Some(input.statusText)
    ensures LegacySpec(s, input, median, std).value.notice.None?
  {
  }

  /** While 0.5 < progress < 100 the notice is the first due of start, done10, done50, done90, and it is recorded. */
  lemma InProgressFollowsLadder(s: LegacyState, input: LegacyInput, median: seq<real> -> real, std: seq<real> -> real)
    requires ValidLegacy(s) && WellFormedInput(input) && input.status == "printing"
    requires s.tracked == Monitoring.Tracked(input.job.value.uuid)
    requires 0.5 < input.job.value.progress < 100.0
    requires LegacySpec(s, input, median, std).Ok?
    ensures var step := LegacySpec(s, input, median, std).value;
      var expected := LegacyLadder(s.notices.value, input.job.value.progress);
      && (step.notice.Some? <==> expected.Some?)
      && (expected.Some? ==> step.notice.value.milestone == expected.value
                             && step.state.notices.value[Monitoring.Key(expected.value)])
  {
  }

  /**
   * A job first seen at 100% gets its end notice at once, carrying the
   * detail text left over from the last in-progress pass; with none, the loop
   * raises.
   */
  lemma EndOnFirstSight(s: LegacyState, input: LegacyInput, median: seq<real> -> real, std: seq<real> -> real)
    requires ValidLegacy(s) && WellFormedInput(input) && input.status == "printing"
    requires s.tracked != Monitoring.Tracked(input.job.value.uuid)
    requires input.job.value.progress == 100.0
    ensures s.deets.None? ==> LegacySpec(s, input, median, std) == Err(DeetsUnbound)
    ensures s.deets.Some? ==>
      && LegacySpec(s, input, median, std).Ok?
      && LegacySpec(s, input, median, std).value.notice.Some?
      && LegacySpec(s, input, median, std).value.notice.value.milestone == Monitoring.End
      && LegacySpec(s, input, median, std).value.notice.value.details == s.deets.value
  {
  }

  /** The "already complete" branch is taken only once end has been recorded: otherwise end fires or the loop raises. */
  lemma AlreadyCompleteNeedsEnd(s: LegacyState, input: LegacyInput, median: seq<real> -> real, std: seq<real> -> real)
    requires ValidLegacy(s) && WellFormedInput(input) && input.status == "printing"
    requires s.tracked == Monitoring.Tracked(input.job.value.uuid)
    requires input.job.value.progress == 100.0
    requires LegacySpec(s, input, median, std).Ok? && LegacySpec(s, input, median, std).value.notice.None?
    ensures s.notices.value["end"]
  {
  }

  /** Progress in [0, 0.5] announces nothing and collects no temperatures. */
  lemma LowProgressQuiet(s: LegacyState, input: LegacyInput, median: seq<real> -> real, std: seq<real> -> real)
    requires ValidLegacy(s) && WellFormedInput(input) && input.status == "printing"
    requires s.tracked == Monitoring.Tracked(input.job.value.uuid)
    requires 0.0 <= input.job.value.progress <= 0.5
    ensures LegacySpec(s, input, median, std).Ok?
    ensures LegacySpec(s, input, median, std).value.notice.None?
    ensures LegacySpec(s, input, median, std).value.state.tstats == s.tstats
  {
  }

  /** Before any printing pass a non-printing pass raises: `curProg` is read before it is bound. */
  lemma IdleFirstPassRaises(input: LegacyInput, median: seq<real> -> real, std: seq<real> -> real)
    requires WellFormedInput(input) && input.status != "printing"
    ensures LegacySpec(LegacyInitial, input, median, std) == Err(CurProgUnbound)
  {
  }

  /**
   * Within one job a milestone is announced at most once: flags already set
   * stay set, and a notice is only for a milestone whose flag was unset,
   * which the pass then sets.
   */
  lemma SameJobNeverRepeats(s: LegacyState, input: LegacyInput, median: seq<real> -> real, std: seq<real> -> real)
    requires ValidLegacy(s) && WellFormedInput(input)
    requires input.status == "printing" ==> s.tracked == Monitoring.Tracked(input.job.value.uuid)
    requires LegacySpec(s, input, median, std).Ok?
    ensures var step := LegacySpec(s, input, median, std).value;
      && (s.notices.Some? ==>
            && step.state.notices.Some?
            && forall k :: k in s.notices.value && s.notices.value[k] ==> step.state.notices.value[k])
      && (step.notice.Some? ==>
            var key := Monitoring.Key(step.notice.value.milestone);
            s.notices.Some? && !s.notices.value[key] && step.state.notices.value[key])
  {
  }
}

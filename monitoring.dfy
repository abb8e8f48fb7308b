/**
 * ultimonitor/monitoring.py: the per-job milestone engine of the printer
 * monitor. `checkJob` tracks the job by UUID and hands out a fresh notice
 * ledger when it changes; `notificationTree` picks at most one milestone per
 * poll; one pass of `monitorUltimaker` normalises the printer status, asks
 * for the LED colour, gates the ladder and records the milestone it chose.
 * Printing, sleeping, the camera and the SMTP hand-off are not modelled; the
 * printer's replies arrive as a `Snapshot`.
 */
module Monitoring {
  import opened Wrappers
  import Text
  import StatusTables
  import Printer
  import Email

  /** The job being watched: before the first printing poll it is the integer 8675309, which no UUID text equals. */
  datatype TrackedId = Sentinel8675309 | Tracked(uuid: string)

  datatype Milestone = Start | Done10 | Done50 | Done90 | End

  /** The ledger key of each milestone. */
  function Key(m: Milestone): string
  {
    match m
    case Start => "start"
    case Done10 => "done10"
    case Done50 => "done50"
    case Done90 => "done90"
    case End => "end"
  }

  /** Position on the ladder: the order in which the source tests the milestones. */
  function Rank(m: Milestone): nat
  {
    match m
    case Start => 0
    case Done10 => 1
    case Done50 => 2
    case Done90 => 3
    case End => 4
  }

  lemma KeyInjective(m1: Milestone, m2: Milestone)
    ensures Key(m1) == Key(m2) <==> m1 == m2
  {
  }

  /** The notice ledger: one flag per key. */
  type Ledger = map<string, bool>

  /** What `checkJob` hands out for a new job: six unset flags, the last keyed "end". */
  const FreshLedger: Ledger := map[
    "preamble" := false,
    "start" := false,
    "done10" := false,
    "done50" := false,
    "done90" := false,
    "end" := false]

  predicate IsLedger(n: Ledger)
  {
    n.Keys == FreshLedger.Keys
  }

  /** Has progress `p` reached milestone `m`? The last one needs exactly 100. */
  predicate Reached(m: Milestone, p: real)
  {
    match m
    case Start => p >= 0.0
    case Done10 => p >= 10.0
    case Done50 => p >= 50.0
    case Done90 => p >= 90.0
    case End => p == 100.0
  }

  /** A milestone is due when progress has reached it and it has not been announced. */
  predicate Due(n: Ledger, m: Milestone, p: real)
    requires IsLedger(n)
  {
    Reached(m, p) && !n[Key(m)]
  }

  /** The `if/elif` ladder of `notificationTree`: the first due milestone, if any. */
  function Ladder(n: Ledger, p: real): (r: Option<Milestone>)
    requires IsLedger(n)
    ensures r.Some? ==> Due(n, r.value, p)
    ensures r.Some? ==> forall m :: Rank(m) < Rank(r.value) ==> !Due(n, m, p)
    ensures r.None? ==> forall m :: !Due(n, m, p)
  {
    if p >= 0.0 && !n["start"] then Some(Start)
    else if p >= 10.0 && !n["done10"] then Some(Done10)
    else if p >= 50.0 && !n["done50"] then Some(Done50)
    else if p >= 90.0 && !n["done90"] then Some(Done90)
    else if p == 100.0 && !n["end"] then Some(End)
    else None
  }

  /** The detail text: the temperature query is commented out, so it is always this advisory. */
  const Advisory: string :=
    "Unfortunately, the database was unavailable when temperature statistics were queried."
    + "\n\nThat's probably not a good thing, but it could just mean that the network "
    + "was interrupted unexpectedly. You should probably check on stuff!"

  /** The statuses in which a finished print is only awaiting cleanup. */
  const Finished: set<string> := {"post_print", "wait_cleanup"}

  datatype TreeOutcome = TreeOutcome(notices: Ledger, emailFlag: bool, noteKey: Option<Milestone>, deets: string)

  datatype PollError =
    | UnknownFlowState(code: int)   // statusMap[flowState] raises KeyError
    | StatusTextUnbound             // the start branch reads strStatus, bound only when preamble was unset

  /**
   * `notificationTree`. `statusText` is what `formatStatus` would render for
   * this poll; it is read only when the preamble flag was still unset. The
   * preamble flag is set in every case; `prevProg` decides nothing.
   */
  function Tree(n: Ledger, actualStatus: string, curProg: real, prevProg: real, statusText: string)
    : (r: Result<TreeOutcome, PollError>)
    requires IsLedger(n)
    ensures r.Ok? ==> r.value.notices == n["preamble" := true]
    ensures r.Ok? ==> (r.value.emailFlag <==> r.value.noteKey.Some?)
    ensures Text.Lower(actualStatus) in Finished ==> r.Ok? && r.value.noteKey.None? && r.value.deets == Advisory
    ensures Text.Lower(actualStatus) !in Finished ==>
      && (r.Err? <==> Ladder(n, curProg) == Some(Start) && n["preamble"])
      && (r.Ok? ==> r.value.noteKey == Ladder(n, curProg))
    ensures r.Ok? && r.value.noteKey == Some(Start) ==> r.value.deets == statusText
    ensures r.Ok? && r.value.noteKey == Some(End) ==> r.value.deets == ""
    ensures r.Ok? && r.value.noteKey.Some? && r.value.noteKey.value !in {Start, End} ==> r.value.deets == Advisory
  {
    var strStatusBound := !n["preamble"];
    var notices := n["preamble" := true];
    if Text.Lower(actualStatus) in Finished then
      Ok(TreeOutcome(notices, false, None, Advisory))
    else
      match Ladder(n, curProg)
      case None => Ok(TreeOutcome(notices, false, None, Advisory))
      case Some(Start) =>
        if strStatusBound then Ok(TreeOutcome(notices, true, Some(Start), statusText))
        else Err(StatusTextUnbound)
      case Some(End) => Ok(TreeOutcome(notices, true, Some(End), ""))
      case Some(m) => Ok(TreeOutcome(notices, true, Some(m), Advisory))
  }

  /** `checkJob`: the job to watch from now on, and its ledger (fresh when the UUID changed). */
  function CheckJob(uuid: string, tracked: TrackedId, notices: Option<Ledger>): (r: (TrackedId, Option<Ledger>))
    ensures r.0 == Tracked(uuid)
    ensures tracked != Tracked(uuid) ==> r.1 == Some(FreshLedger)
    ensures tracked == Tracked(uuid) ==> r.1 == notices
  {
    if tracked != Tracked(uuid) then (Tracked(uuid), Some(FreshLedger)) else (tracked, notices)
  }

  /**
   * The status the pass acts on: the coarse status when only the coarse
   * endpoint reports it, else the word for the flow-state code. The code is
   * looked up first, so an unlisted code raises whatever the coarse status.
   */
  function CanonicalStatus(status: string, flowCode: int): (r: Result<string, PollError>)
    ensures r.Err? <==> StatusTables.FlowStateWords(flowCode).None?
    ensures r.Err? ==> r.error == UnknownFlowState(flowCode)
    ensures r.Ok? && status in StatusTables.CoarseOnly ==> r.value == status
    ensures r.Ok? && status !in StatusTables.CoarseOnly ==> r.value == StatusTables.FlowStateWords(flowCode).value
  {
    match StatusTables.FlowStateWords(flowCode)
    case None => Err(UnknownFlowState(flowCode))
    case Some(words) => if status in StatusTables.CoarseOnly then Ok(status) else Ok(words)
  }

  /** Every status the pass can act on has an LED colour, and none of them is "unknown", so the LED is always checked. */
  lemma CanonicalStatusHasColour(status: string, flowCode: int)
    requires CanonicalStatus(status, flowCode).Ok?
    ensures var s := CanonicalStatus(status, flowCode).value;
      && StatusTables.StatusColor(s).Some?
      && Text.Lower(s) == s
      && Text.Lower(s) != "unknown"
  {
    var s := CanonicalStatus(status, flowCode).value;
    StatusTables.ColorsCoverEveryStatus();
    if status !in StatusTables.CoarseOnly {
      assert StatusTables.FlowStateMap[flowCode] == s;
    }
    assert s in StatusTables.StatusColors;
    if status in StatusTables.CoarseOnly {
      StatusTables.CoarseWordsAreLowerCase(s);
    } else {
      StatusTables.FlowWordsAreLowerCase(flowCode);
    }
    Text.LowerOfLowerCase(s);
  }

  /** The statuses in which the ladder runs. */
  const LadderGate: set<string> := {"printing", "pausing", "paused", "resuming", "post_print", "wait_cleanup"}

  /**
   * What the printer said in one poll: the coarse status, the job parameters
   * (present while printing), the flow-state code, and the setup text
   * `formatStatus` renders.
   */
  datatype Snapshot = Snapshot(status: string, job: Option<Printer.JobParameters>, flowCode: int, statusText: string)

  /** `statusCheck` builds JobParameters exactly when the status is "printing". */
  predicate WellFormed(snap: Snapshot)
  {
    snap.status == "printing" <==> snap.job.Some?
  }

  /** A milestone announcement: what `makeEmailUpdate` is given. */
  datatype Notice = Notice(milestone: Milestone, jobId: string, jobName: string, details: string)

  /** What a pass does outside the monitor's own state: the LED status asked for, and the milestone announced. */
  datatype PollReport = PollReport(ledStatus: Option<string>, notice: Option<Notice>)

  datatype MonitorState = MonitorState(tracked: TrackedId, notices: Option<Ledger>, curProg: real, prevProg: real)

  /** Once a job is tracked it has a ledger with the six keys. */
  predicate ValidState(s: MonitorState)
  {
    && (s.tracked.Tracked? <==> s.notices.Some?)
    && (s.notices.Some? ==> IsLedger(s.notices.value))
  }

  const Initial: MonitorState := MonitorState(Sentinel8675309, None, -9999.0, -9999.0)

  datatype Step = Step(state: MonitorState, report: PollReport)

  /** Record a chosen milestone in the ledger. */
  function Record(n: Ledger, o: Option<Milestone>): (r: Ledger)
    requires IsLedger(n)
    ensures IsLedger(r)
    ensures o.Some? ==> r[Key(o.value)]
    ensures forall k :: k in n && (o.None? || k != Key(o.value)) ==> r[k] == n[k]
  {
    if o.Some? then n[Key(o.value) := true] else n
  }

  /** The printing branch of one pass, with `actual` the status already normalised. */
  function PrintingStep(s: MonitorState, jp: Printer.JobParameters, actual: string, statusText: string,
                        led: Option<string>): (r: Result<Step, PollError>)
    requires ValidState(s)
    ensures r.Ok? ==> ValidState(r.value.state)
    ensures r.Ok? ==> r.value.state.tracked == Tracked(jp.uuid)
    ensures r.Ok? ==> r.value.state.curProg == r.value.state.prevProg == jp.progress
    ensures r.Ok? ==> r.value.report.ledStatus == led
  {
    var (tracked, notices) := CheckJob(jp.uuid, s.tracked, s.notices);
    var ledger := notices.value;
    if Text.Lower(actual) in LadderGate then
      match Tree(ledger, actual, jp.progress, s.prevProg, statusText)
      case Err(e) => Err(e)
      case Ok(t) =>
        var notice := if t.noteKey.Some?
          then Some(Notice(t.noteKey.value, Text.BeforeFirst(jp.uuid, '-'), jp.name, t.deets))
          else None;
        Ok(Step(MonitorState(tracked, Some(Record(t.notices, t.noteKey)), jp.progress, jp.progress),
                PollReport(led, notice)))
    else
      Ok(Step(MonitorState(tracked, Some(ledger), jp.progress, jp.progress), PollReport(led, None)))
  }

  /** A pass over the printer's answers: normalise the status, ask for its LED colour, and run the printing branch. */
  function SnapshotStep(s: MonitorState, snap: Snapshot): (r: Result<Step, PollError>)
    requires ValidState(s) && WellFormed(snap)
    ensures r.Ok? ==> ValidState(r.value.state)
    ensures r.Ok? ==> CanonicalStatus(snap.status, snap.flowCode).Ok?
    ensures snap.status != "printing" && r.Ok? ==> r.value.state == s && r.value.report.notice.None?
    ensures r.Ok? ==> var actual := CanonicalStatus(snap.status, snap.flowCode).value;
      r.value.report.ledStatus == if Text.Lower(actual) != "unknown" then Some(actual) else None
  {
    match CanonicalStatus(snap.status, snap.flowCode)
    case Err(e) => Err(e)
    case Ok(actual) =>
      var led := if Text.Lower(actual) != "unknown" then Some(actual) else None;
      if snap.status != "printing" then Ok(Step(s, PollReport(led, None)))
      else PrintingStep(s, snap.job.value, actual, snap.statusText, led)
  }

  /** One pass of the monitor loop; `None` is a failed status check, which changes nothing. */
  function PollSpec(s: MonitorState, input: Option<Snapshot>): (r: Result<Step, PollError>)
    requires ValidState(s)
    requires input.Some? ==> WellFormed(input.value)
    ensures r.Ok? ==> ValidState(r.value.state)
    ensures input.None? ==> r == Ok(Step(s, PollReport(None, None)))
  {
    match input
    case None => Ok(Step(s, PollReport(None, None)))
    case Some(snap) => SnapshotStep(s, snap)
  }

  /** The running monitor: the job it watches, that job's ledger and the last two progress readings. */
  class Monitor {
    var tracked: TrackedId
    var notices: Option<Ledger>
    var curProg: real
    var prevProg: real

    function State(): MonitorState
      reads this
    {
      MonitorState(tracked, notices, curProg, prevProg)
    }

    ghost predicate Valid()
      reads this
    {
      ValidState(State())
    }

    /** The initial parameters: the sentinel job, no ledger, progress -9999. */
    constructor ()
      ensures State() == Initial
      ensures Valid()
    {
      tracked := Sentinel8675309;
      notices := None;
      curProg := -9999.0;
      prevProg := -9999.0;
    }

    /**
     * One pass of `monitorUltimaker`. A raised error ends the monitor, so the
     * state it leaves behind is not observable; here it is left as it was.
     */
    method Poll(input: Option<Snapshot>) returns (r: Result<PollReport, PollError>)
      requires Valid()
      requires input.Some? ==> WellFormed(input.value)
      modifies this
      ensures Valid()
      ensures PollSpec(old(State()), input).Ok? ==>
        r == Ok(PollSpec(old(State()), input).value.report) && State() == PollSpec(old(State()), input).value.state
      ensures PollSpec(old(State()), input).Err? ==>
        r == Err(PollSpec(old(State()), input).error) && State() == old(State())
    {
      if input.None? {
        return Ok(PollReport(None, None));
      }
      var snap := input.value;
      var canonical := CanonicalStatus(snap.status, snap.flowCode);
      if canonical.Err? {
        return Err(canonical.error);
      }
      var actualStatus := canonical.value;
      ghost var before := State();
      assert PollSpec(before, input) == SnapshotStep(before, snap);
      var led: Option<string> := None;
      if Text.Lower(actualStatus) != "unknown" {
        led := Some(actualStatus);
      }
      if snap.status != "printing" {
        return Ok(PollReport(led, None));
      }
      assert PollSpec(before, input) == PrintingStep(before, snap.job.value, actualStatus, snap.statusText, led);
      r := PollPrinting(snap.job.value, actualStatus, snap.statusText, led);
    }

    /** The printing branch: `checkJob`, then the ladder while the status is in the gate. */
    method PollPrinting(jp: Printer.JobParameters, actualStatus: string, statusText: string, led: Option<string>)
      returns (r: Result<PollReport, PollError>)
      requires Valid()
      modifies this
      ensures Valid()
      ensures PrintingStep(old(State()), jp, actualStatus, statusText, led).Ok? ==>
        var step := PrintingStep(old(State()), jp, actualStatus, statusText, led).value;
        r == Ok(step.report) && State() == step.state
      ensures PrintingStep(old(State()), jp, actualStatus, statusText, led).Err? ==>
        r == Err(PrintingStep(old(State()), jp, actualStatus, statusText, led).error) && State() == old(State())
    {
      var job := CheckJob(jp.uuid, tracked, notices);
      var ledger := job.1.value;
      var notice: Option<Notice> := None;
      if Text.Lower(actualStatus) in LadderGate {
        var tree := Tree(ledger, actualStatus, jp.progress, prevProg, statusText);
        if tree.Err? {
          return Err(tree.error);
        }
        var t := tree.value;
        ledger := t.notices;
        if t.noteKey.Some? {
          ledger := ledger[Key(t.noteKey.value) := true];
          notice := Some(Notice(t.noteKey.value, Text.BeforeFirst(jp.uuid, '-'), jp.name, t.deets));
        }
      }
      tracked, notices := job.0, Some(ledger);
      curProg := jp.progress;
      prevProg := curProg;
      r := Ok(PollReport(led, notice));
    }
  }

  /** The mail a notice becomes: every milestone is a known mail type, so only a missing mail configuration yields none. */
  function NoticeMail(notice: Notice, config: Option<Email.EmailConfig>): (r: Option<Email.Mail>)
    ensures r.Some? <==> config.Some?
    ensures r.Some? ==> r == Email.MakeEmailUpdate(Key(notice.milestone), notice.jobId, notice.jobName,
                                                     notice.details, config).value
  {
    assert Key(notice.milestone) in Email.MailTypes;
    Email.MakeEmailUpdate(Key(notice.milestone), notice.jobId, notice.jobName, notice.details, config).value
  }

  /** Every pass that gets past the status lookup asks for the LED colour of the status it acts on. */
  lemma LedAlwaysRequested(s: MonitorState, input: Option<Snapshot>)
    requires ValidState(s) && (input.Some? ==> WellFormed(input.value))
    requires input.Some? && PollSpec(s, input).Ok?
    ensures PollSpec(s, input).value.report.ledStatus == Some(CanonicalStatus(input.value.status, input.value.flowCode).value)
  {
    assert PollSpec(s, input) == SnapshotStep(s, input.value);
    CanonicalStatusHasColour(input.value.status, input.value.flowCode);
  }

  /** A poll in which the printer is not printing changes nothing in the monitor and announces nothing. */
  lemma IdlePollChangesNothing(s: MonitorState, snap: Snapshot)
    requires ValidState(s) && WellFormed(snap) && snap.status != "printing"
    requires StatusTables.FlowStateWords(snap.flowCode).Some?
    ensures PollSpec(s, Some(snap)).Ok?
    ensures PollSpec(s, Some(snap)).value.state == s
    ensures PollSpec(s, Some(snap)).value.report.notice.None?
  {
  }

  /**
   * A printing poll on the ladder announces exactly the first due milestone
   * of the job's ledger, records it, and leaves every other flag but the
   * preamble as it was.
   */
  lemma PrintingPollFollowsLadder(s: MonitorState, snap: Snapshot)
    requires ValidState(s) && WellFormed(snap) && snap.status == "printing"
    requires PollSpec(s, Some(snap)).Ok?
    requires CanonicalStatus(snap.status, snap.flowCode).value in LadderGate - Finished
    ensures var jp := snap.job.value;
      var n := CheckJob(jp.uuid, s.tracked, s.notices).1.value;
      var step := PollSpec(s, Some(snap)).value;
      && (step.report.notice.Some? <==> Ladder(n, jp.progress).Some?)
      && (step.report.notice.Some? ==> step.report.notice.value.milestone == Ladder(n, jp.progress).value)
      && step.state.notices == Some(Record(n["preamble" := true], Ladder(n, jp.progress)))
  {
    var actual := CanonicalStatus(snap.status, snap.flowCode).value;
    CanonicalStatusHasColour(snap.status, snap.flowCode);
    assert Text.Lower(actual) == actual;
  }

  /** In post_print or wait_cleanup nothing is announced, even on the first sight of a job at 100%. */
  lemma CleanupAnnouncesNothing(s: MonitorState, snap: Snapshot)
    requires ValidState(s) && WellFormed(snap) && snap.status == "printing"
    requires snap.flowCode == 15 || snap.flowCode == 16
    ensures PollSpec(s, Some(snap)).Ok?
    ensures PollSpec(s, Some(snap)).value.report.notice.None?
  {
    var actual := CanonicalStatus(snap.status, snap.flowCode).value;
    assert actual in Finished by {
      assert StatusTables.FlowStateMap[15] == "post_print";
      assert StatusTables.FlowStateMap[16] == "wait_cleanup";
    }
    CanonicalStatusHasColour(snap.status, snap.flowCode);
  }

  /** Has milestone `m` been recorded in ledger `n`? */
  predicate Announced(n: Ledger, m: Milestone)
  {
    Key(m) in n && n[Key(m)]
  }

  /** Flags only ever get set, and `m`, if announced, was unset before and is set after. */
  predicate FiresOnce(before: Ledger, after: Ledger, announced: Option<Notice>)
  {
    && (forall k :: k in before && before[k] ==> k in after && after[k])
    && (announced.Some? ==> !Announced(before, announced.value.milestone) && Announced(after, announced.value.milestone))
  }

  lemma PrintingStepFiresOnce(s: MonitorState, jp: Printer.JobParameters, actual: string, statusText: string,
                              led: Option<string>)
    requires ValidState(s) && s.tracked == Tracked(jp.uuid)
    requires PrintingStep(s, jp, actual, statusText, led).Ok?
    ensures var step := PrintingStep(s, jp, actual, statusText, led).value;
      FiresOnce(s.notices.value, step.state.notices.value, step.report.notice)
  {
    var n := s.notices.value;
    assert CheckJob(jp.uuid, s.tracked, s.notices).1 == Some(n);
    if Text.Lower(actual) in LadderGate {
      var t := Tree(n, actual, jp.progress, s.prevProg, statusText).value;
      assert t.notices == n["preamble" := true];
      var after := Record(t.notices, t.noteKey);
      assert PrintingStep(s, jp, actual, statusText, led).value.state.notices == Some(after);
      if t.noteKey.Some? {
        assert t.noteKey == Ladder(n, jp.progress);
        assert !n[Key(t.noteKey.value)];
      }
    }
  }

  /** A poll of the tracked job keeps tracking it, only ever sets flags, and announces only an unset milestone, which it sets. */
  lemma PollFiresOnce(s: MonitorState, snap: Snapshot)
    requires ValidState(s) && WellFormed(snap)
    requires s.tracked.Tracked? && (snap.status == "printing" ==> snap.job.value.uuid == s.tracked.uuid)
    requires PollSpec(s, Some(snap)).Ok?
    ensures var step := PollSpec(s, Some(snap)).value;
      && step.state.tracked == s.tracked
      && FiresOnce(s.notices.value, step.state.notices.value, step.report.notice)
  {
    if snap.status == "printing" {
      var actual := CanonicalStatus(snap.status, snap.flowCode).value;
      CanonicalStatusHasColour(snap.status, snap.flowCode);
      var led := if Text.Lower(actual) != "unknown" then Some(actual) else None;
      assert PollSpec(s, Some(snap)) == PrintingStep(s, snap.job.value, actual, snap.statusText, led);
      PrintingStepFiresOnce(s, snap.job.value, actual, snap.statusText, led);
    }
  }

  predicate AllWellFormed(inputs: seq<Option<Snapshot>>)
  {
    forall i :: 0 <= i < |inputs| && inputs[i].Some? ==> WellFormed(inputs[i].value)
  }

  /** The milestones a sequence of polls announces, or the error that ends it. */
  function Run(s: MonitorState, inputs: seq<Option<Snapshot>>): Result<seq<Milestone>, PollError>
    requires ValidState(s)
    requires AllWellFormed(inputs)
    decreases |inputs|
  {
    if inputs == [] then Ok([])
    else
      match PollSpec(s, inputs[0])
      case Err(e) => Err(e)
      case Ok(step) =>
        match Run(step.state, inputs[1..])
        case Err(e) => Err(e)
        case Ok(ms) =>
          var here := if step.report.notice.Some? then [step.report.notice.value.milestone] else [];
          Ok(here + ms)
  }

  /** The first poll of a run that ends normally, and what it announces. */
  lemma RunUnfold(s: MonitorState, inputs: seq<Option<Snapshot>>)
    requires ValidState(s) && inputs != []
    requires AllWellFormed(inputs)
    requires Run(s, inputs).Ok?
    ensures PollSpec(s, inputs[0]).Ok?
    ensures var step := PollSpec(s, inputs[0]).value;
      && Run(step.state, inputs[1..]).Ok?
      && Run(s, inputs).value
         == (if step.report.notice.Some? then [step.report.notice.value.milestone] else [])
            + Run(step.state, inputs[1..]).value
  {
  }

  /** Every printing poll in the sequence is of job `uuid`. */
  predicate SameJob(inputs: seq<Option<Snapshot>>, uuid: string)
  {
    forall i :: 0 <= i < |inputs| && inputs[i].Some? && inputs[i].value.status == "printing" ==>
      inputs[i].value.job.Some? && inputs[i].value.job.value.uuid == uuid
  }

  /** One poll of the tracked job, printing or not, keeps tracking it and announces only what it newly records. */
  lemma PollOfSameJob(s: MonitorState, input: Option<Snapshot>, uuid: string)
    requires ValidState(s) && s.tracked == Tracked(uuid)
    requires input.Some? ==> WellFormed(input.value)
    requires input.Some? && input.value.status == "printing" ==> input.value.job.value.uuid == uuid
    requires PollSpec(s, input).Ok?
    ensures var step := PollSpec(s, input).value;
      && step.state.tracked == Tracked(uuid)
      && ValidState(step.state) && step.state.notices.Some?
      && FiresOnce(s.notices.value, step.state.notices.value, step.report.notice)
  {
    if input.Some? {
      PollFiresOnce(s, input.value);
    }
  }

  /** No milestone in `ms` is recorded in `n`, and none occurs twice. */
  predicate FreshAndDistinct(n: Ledger, ms: seq<Milestone>)
  {
    && (forall i :: 0 <= i < |ms| ==> !Announced(n, ms[i]))
    && (forall i, j :: 0 <= i < j < |ms| ==> ms[i] != ms[j])
  }

  /** Putting a newly recorded milestone in front of ones not recorded afterwards keeps them distinct and unrecorded before. */
  lemma PrependFresh(before: Ledger, after: Ledger, announced: Option<Notice>, rest: seq<Milestone>)
    requires FiresOnce(before, after, announced)
    requires FreshAndDistinct(after, rest)
    ensures FreshAndDistinct(before, (if announced.Some? then [announced.value.milestone] else []) + rest)
  {
  }

  lemma TailOfSameJob(inputs: seq<Option<Snapshot>>, uuid: string)
    requires inputs != [] && AllWellFormed(inputs) && SameJob(inputs, uuid)
    ensures AllWellFormed(inputs[1..]) && SameJob(inputs[1..], uuid)
  {
    assert forall i :: 0 <= i < |inputs| - 1 ==> inputs[1..][i] == inputs[i + 1];
  }

  /**
   * While the same job is watched, no milestone is announced twice, and none
   * that was already recorded is announced again.
   */
  lemma {:induction false} NeverTwice(s: MonitorState, inputs: seq<Option<Snapshot>>, uuid: string)
    requires ValidState(s) && s.tracked == Tracked(uuid)
    requires AllWellFormed(inputs)
    requires SameJob(inputs, uuid)
    requires Run(s, inputs).Ok?
    decreases |inputs|
    ensures FreshAndDistinct(s.notices.value, Run(s, inputs).value)
  {
    if inputs != [] {
      RunUnfold(s, inputs);
      var step := PollSpec(s, inputs[0]).value;
      PollOfSameJob(s, inputs[0], uuid);
      var before, after := s.notices.value, step.state.notices.value;
      assert FiresOnce(before, after, step.report.notice);
      TailOfSameJob(inputs, uuid);
      var rest := Run(step.state, inputs[1..]).value;
      NeverTwice(step.state, inputs[1..], uuid);
      PrependFresh(before, after, step.report.notice, rest);
    }
  }

  /**
   * The ladder alone over a sequence of progress readings, recording each
   * milestone it picks: one choice per reading, each one unrecorded in the
   * ledger it started from, and none picked twice.
   */
  function LadderRun(n: Ledger, progress: seq<real>): (r: seq<Option<Milestone>>)
    requires IsLedger(n)
    ensures |r| == |progress|
    ensures forall i :: 0 <= i < |r| && r[i].Some? ==> !n[Key(r[i].value)]
    ensures forall i, j :: 0 <= i < j < |r| && r[i].Some? && r[j].Some? ==> r[i] != r[j]
  {
    if progress == [] then []
    else
      var m := Ladder(n, progress[0]);
      [m] + LadderRun(Record(n, m), progress[1..])
  }

  /** One reading of a ladder run: its choice, then the rest of the run from the ledger that records it. */
  lemma LadderRunStep(n: Ledger, p: real, ps: seq<real>)
    requires IsLedger(n)
    ensures LadderRun(n, [p] + ps) == [Ladder(n, p)] + LadderRun(Record(n, Ladder(n, p)), ps)
  {
    assert ([p] + ps)[1..] == ps;
  }

  /** The same job once start and done10 are recorded, polled at 60, 100 and 100%: done50, done90, then end. */
  lemma TypicalJobFromDone10()
    ensures LadderRun(Record(Record(FreshLedger, Some(Start)), Some(Done10)), [60.0, 100.0, 100.0])
         == [Some(Done50), Some(Done90), Some(End)]
  {
    var n2 := Record(Record(FreshLedger, Some(Start)), Some(Done10));
    assert Ladder(n2, 60.0) == Some(Done50);
    var n3 := Record(n2, Some(Done50));
    assert Ladder(n3, 100.0) == Some(Done90);
    var n4 := Record(n3, Some(Done90));
    assert Ladder(n4, 100.0) == Some(End);
    LadderRunStep(n4, 100.0, []);
    assert LadderRun(n4, [100.0]) == [Some(End)];
    LadderRunStep(n3, 100.0, [100.0]);
    assert LadderRun(n3, [100.0, 100.0]) == [Some(Done90)] + [Some(End)];
    LadderRunStep(n2, 60.0, [100.0, 100.0]);
  }

  /** A job watched from the start, polled at 0, 15, 60, 100 and 100%: five notices, done90 before end. */
  lemma TypicalJob()
    ensures LadderRun(FreshLedger, [0.0, 15.0, 60.0, 100.0, 100.0])
         == [Some(Start), Some(Done10), Some(Done50), Some(Done90), Some(End)]
  {
    assert Ladder(FreshLedger, 0.0) == Some(Start);
    var n1 := Record(FreshLedger, Some(Start));
    assert Ladder(n1, 15.0) == Some(Done10);
    TypicalJobFromDone10();
    var r2 := [Some(Done50), Some(Done90), Some(End)];
    LadderRunStep(n1, 15.0, [60.0, 100.0, 100.0]);
    var r1 := [Some(Done10)] + r2;
    assert LadderRun(n1, [15.0, 60.0, 100.0, 100.0]) == r1;
    LadderRunStep(FreshLedger, 0.0, [15.0, 60.0, 100.0, 100.0]);
    assert [Some(Start)] + r1 == [Some(Start), Some(Done10), Some(Done50), Some(Done90), Some(End)];
  }

  /** A jump from 5% to 95% announces only the next milestone, done10. */
  lemma JumpAnnouncesOne()
    ensures LadderRun(FreshLedger, [5.0, 95.0]) == [Some(Start), Some(Done10)]
  {
    var n1 := FreshLedger["start" := true];
    assert LadderRun(n1, [95.0]) == [Some(Done10)];
  }

  /** At 100% with done90 unannounced, done90 is chosen and end waits for a later poll. */
  lemma EndWaitsForDone90(n: Ledger)
    requires IsLedger(n) && !n["done90"] && n["start"] && n["done10"] && n["done50"]
    ensures Ladder(n, 100.0) == Some(Done90)
    ensures Ladder(Record(n, Some(Done90)), 100.0) == (if n["end"] then None else Some(End))
  {
  }
}

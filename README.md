# Ultimonitor milestone engine, in Dafny

Ultimonitor watches an Ultimaker 3D printer over its HTTP API. Each pass of its
poll loop reads the printer's status, sets the printer's LED to the colour of
that status, and while a job is printing decides whether one of the job's
progress milestones (start, 10 %, 50 %, 90 %, done) should be announced by
mail. A per-job ledger of boolean flags makes every milestone fire at most once,
and the ledger is replaced when the job UUID changes.

This project models that engine and the logic around it:

- `monitoring.dfy` (`ultimonitor/monitoring.py`): the milestone ladder of
  `notificationTree`, the job tracker `checkJob`, status normalisation, the LED
  gate, the ladder gate and one pass of `monitorUltimaker`. The pass is a
  `Monitor` class whose `Poll` method is proved against the function
  `PollSpec`. Lemmas over `Run`, a sequence of polls, show that a milestone is
  never announced twice for one job.
- `legacy.dfy` (`printzini.py`): the older inline loop body. It has its own
  five-flag ladder, gated on 0.5 < progress < 100, an `end` branch that fires
  even on first sight, a per-job temperature accumulator, and `prevProg`
  updated on every pass. `Printzini.Poll` is proved against `LegacySpec`.
- `printer.dfy` (`ultimonitor/printer.py`): `tempStats` (transposition of the
  sample rows, |target − current| deviation series, min/avg/max) and
  `collapseStats`. The latter is a `TempAccumulator` class whose lists grow by
  one value per poll; the job figures are the min of the minima, the max of the
  maxima and the mean of the means. Also the JobParameters part of
  `statusCheck` and `getMaterial`.
- `status_tables.dfy` (`Printzini.py`): the flow-state and status-colour tables.
- `leds.dfy` (`ultimonitor/leds.py`): the palette's "#RRGGBB" parsing and the
  mismatch scan of `ledCheck`.
- `email.dfy` (`ultimonitor/email.py`): subject and body assembly.
- `api.dfy` (`ultimonitor/apitools.py`): base-URL prefixing and status-code
  gating.
- `dbq.dfy` (`dbq.py`): the InfluxQL statement builder `queryConstructor`.
- `classes.dfy` (`ultimonitor/classes.py`): the record initialisers.
- `clausius.dfy` (`Clausius.py`): `setupStats` and one pass of
  `startCollections`.
- Shared modules:
  - `text.dfy` holds ASCII `lower`, `strip`, `split`, `int()` and `%d`/`%02d`;
  - `stats.dfy` holds min, max, average and deviations over reals;
  - `wrappers.dfy` holds Option and Result.

Progress and temperatures are `real`. `np.median` and `np.std` are function
parameters, left uninterpreted. A Python exception that ends the loop is an
`Err` outcome, and the state stays as it was before the pass. The tracked job
starts as the integer 8675309, modelled as a constructor distinct from every
UUID text.

The model follows the code as written, including where its behaviour is
surprising:

- An unlisted flow-state code makes `statusMap[flowState]` raise, so the lookup
  is partial. It does not yield "unknown", so the LED gate on "unknown" never
  skips anything.
- At 100 % with `done90` still unset, `done90` fires first, and `end` waits for
  a later poll.
- In post_print and wait_cleanup the `prevProg` test has no effect. Nothing is
  announced, and `end` is not recorded.
- `jobInProgress` keys its last flag "completed", while `checkJob` builds its
  own ledger keyed "end".
- `notificationTree` binds `strStatus` only when `preamble` is unset on entry.
  A later `start` then raises (UnboundLocalError).
- In `printzini.py`, `curProg` and `deets` are carried between passes and can
  be read before they are bound (NameError). Its colour table has no
  "wait_user_action".

## Model

| member | source | states |
|---|---|---|
| Monitoring.KeyInjective | ultimonitor/monitoring.py:69-97 | distinct milestones use distinct ledger keys, so recording one never touches another |
| Monitoring.Ladder | ultimonitor/monitoring.py:69-97 | the chosen milestone is due (reached and unset), every earlier rung is not due, and None means no milestone is due |
| Monitoring.Tree | ultimonitor/monitoring.py:27-120 | sets only `preamble`; emailFlag holds iff a milestone is chosen; post_print/wait_cleanup chooses none; otherwise the choice is the ladder's, and a start with `preamble` already set raises; details are the setup text for start, "" for end, the database advisory otherwise |
| Monitoring.CheckJob | ultimonitor/monitoring.py:123-153 | the job becomes the watched one; a different UUID (or the sentinel) gets six unset flags, the same UUID keeps its ledger |
| Monitoring.CanonicalStatus | ultimonitor/monitoring.py:201-203 | fails exactly on a flow-state code missing from the table; error/maintenance/booting pass through, any other status is replaced by the flow-state word |
| Monitoring.CanonicalStatusHasColour | ultimonitor/monitoring.py:217-229 | every status a pass can act on has a colour, is lower case and is not "unknown", so the LED check always runs |
| Monitoring.Record | ultimonitor/monitoring.py:263-264 | the chosen milestone's flag is set and every other flag is kept |
| Monitoring.PrintingStep | ultimonitor/monitoring.py:233-291 | the printed job becomes the watched one, curProg and prevProg both become its progress, the ledger stays well formed, the LED request is kept |
| Monitoring.SnapshotStep | ultimonitor/monitoring.py:193-291 | a pass that goes through had a known flow state; outside "printing" the state is untouched and nothing is announced; the LED request is the normalised status unless it is "unknown" |
| Monitoring.PollSpec | ultimonitor/monitoring.py:188-293 | every pass keeps the state well formed; a failed status check changes nothing and requests nothing, a branch the source never takes since `statusCheck` always returns the Printer, Status and PrintSetup keys (ultimonitor/printer.py:64-149) |
| Monitoring.Monitor.constructor | ultimonitor/monitoring.py:169-173 | starts with the sentinel job, no ledger and progress -9999 |
| Monitoring.Monitor.Poll | ultimonitor/monitoring.py:188-293 | the new state and the report are those of `PollSpec`; a raising pass leaves the state as it was |
| Monitoring.Monitor.PollPrinting | ultimonitor/monitoring.py:233-291 | the new state and report are those of `PrintingStep`; checkJob, the ladder gate, the flag update and prevProg in place |
| Monitoring.NoticeMail | ultimonitor/monitoring.py:270-278 | a notice becomes a mail exactly when mail is configured, and it is `makeEmailUpdate` of the milestone's key, job id, name and details |
| Monitoring.LedAlwaysRequested | ultimonitor/monitoring.py:217-229 | every pass that gets past the status lookup asks for the LED colour of its normalised status |
| Monitoring.IdlePollChangesNothing | ultimonitor/monitoring.py:233 | a pass while not printing leaves the watched job, ledger and progress alone and announces nothing |
| Monitoring.PrintingPollFollowsLadder | ultimonitor/monitoring.py:253-264 | inside the gate and outside cleanup, the announcement is exactly the ladder's choice and the ledger becomes the old one with preamble and that milestone set |
| Monitoring.CleanupAnnouncesNothing | ultimonitor/monitoring.py:59-67 | in post_print or wait_cleanup nothing is announced, even at 100 % on first sight |
| Monitoring.PrintingStepFiresOnce | ultimonitor/monitoring.py:253-264 | for the watched job, flags only go from unset to set, and an announced milestone was unset before and is set after |
| Monitoring.PollFiresOnce | ultimonitor/monitoring.py:188-291 | the same for a whole pass over the watched job |
| Monitoring.PollOfSameJob | ultimonitor/monitoring.py:188-293 | a pass, printing or not, over the watched job keeps watching it and only announces what it newly records |
| Monitoring.PrependFresh | ultimonitor/monitoring.py:263-264 | a newly recorded milestone put in front of milestones unrecorded afterwards gives a list of distinct milestones unrecorded before |
| Monitoring.TailOfSameJob | ultimonitor/monitoring.py:188 | the remaining passes of a run over one job are still well formed and of that job |
| Monitoring.NeverTwice | ultimonitor/monitoring.py:188-291 | over any run of passes of one job, no milestone is announced twice and none that the ledger already had |
| Monitoring.LadderRun | ultimonitor/monitoring.py:69-97 | one choice per progress reading; each chosen milestone was unrecorded at the start, and none is chosen twice |
| Monitoring.TypicalJob | ultimonitor/monitoring.py:69-97 | readings 0, 15, 60, 100, 100 announce start, done10, done50, done90 and then end |
| Monitoring.JumpAnnouncesOne | ultimonitor/monitoring.py:79-92 | a jump from 5 % to 95 % announces only done10 |
| Monitoring.EndWaitsForDone90 | ultimonitor/monitoring.py:89-97 | at 100 % with done90 unset, done90 is chosen and end comes on the next reading |
| PrintziniLegacy.LegacyColorsLackWaitUserAction | printzini.py:53-63 | this loop's colour table is the launcher's without "wait_user_action", with the same colours for every other status |
| PrintziniLegacy.LegacyLadder | printzini.py:140-162 | the first reached and unset of start, done10, done50, done90; never end; None when none is due |
| PrintziniLegacy.ProgressBranch | printzini.py:134-183 | the ledger is passed on unchanged; between 0.5 and 100 the choice is the ladder's; at 100 end is chosen iff unset and details are bound; at or below 0.5, and above 100, nothing is chosen or collected; otherwise only the unbound-details error |
| PrintziniLegacy.Collected | printzini.py:134-162 | a collecting pass fills every accumulator list, keeps the ledger, binds details and chooses the ladder's milestone |
| PrintziniLegacy.AccumulateFills | printzini.py:135-137 | after one collapse no accumulator list is empty |
| PrintziniLegacy.LegacySpec | printzini.py:72-216 | outside "printing", prevProg takes curProg (an error if curProg is unbound) and the LED follows the coarse status; while printing, the job is watched, curProg and prevProg become its progress and the LED follows its JobState |
| PrintziniLegacy.JobOf | printzini.py:79-118 | a new UUID gets five unset flags, an empty accumulator and this pass's status text; the same UUID keeps all three |
| PrintziniLegacy.PrintingSpec | printzini.py:77-213 | the printing branch: the job is watched and curProg, prevProg and the LED status are the job's |
| PrintziniLegacy.Committed | printzini.py:186-213 | a notice is built iff a milestone was chosen, for that milestone, whose flag is then set |
| PrintziniLegacy.Printzini.constructor | printzini.py:69-70 | starts with the sentinel job and prevProg -9999, everything else unbound |
| PrintziniLegacy.Printzini.Poll | printzini.py:72-216 | the new state and outcome are those of `LegacySpec`; a raising pass leaves the state as it was |
| PrintziniLegacy.Printzini.PollPrinting | printzini.py:77-213 | the new state and outcome are those of `PrintingSpec` |
| PrintziniLegacy.Printzini.Commit | printzini.py:186-213 | the state and notice are those of `Committed` |
| PrintziniLegacy.Advance | printzini.py:134-183 | the outcome is `ProgressBranch` of the accumulator as it was, and the accumulator object holds the new figures (unchanged on error) |
| PrintziniLegacy.CollectPoll | printzini.py:135-162 | the outcome is `Collected`, and the accumulator object holds the new figures |
| PrintziniLegacy.NewJobResets | printzini.py:79-118 | a new job at progress up to 0.5 starts with five unset flags, an empty accumulator and its own status text, and announces nothing |
| PrintziniLegacy.InProgressFollowsLadder | printzini.py:134-162 | between 0.5 and 100 the announcement is exactly the ladder's choice, and its flag is set |
| PrintziniLegacy.EndOnFirstSight | printzini.py:164-176 | a new job first seen at 100 % announces end with the carried-over details, or raises if there are none |
| PrintziniLegacy.AlreadyCompleteNeedsEnd | printzini.py:164-183 | at 100 % a quiet pass of the watched job happens only once end was recorded |
| PrintziniLegacy.LowProgressQuiet | printzini.py:134 | progress in [0, 0.5] announces nothing and leaves the accumulator as it was |
| PrintziniLegacy.IdleFirstPassRaises | printzini.py:211-213 | a first pass while not printing reads the unbound curProg and raises |
| PrintziniLegacy.SameJobNeverRepeats | printzini.py:186-201 | for the watched job, set flags stay set and an announced milestone was unset before |
| Printer.Columns | ultimonitor/printer.py:209-215 | one list per label |
| Printer.Transpose | ultimonitor/printer.py:209-215 | succeeds iff no row is wider than the labels, and then gives every label's column in row order |
| Printer.UniformColumn | ultimonitor/printer.py:210-215 | when every row is full, column i is entry i of each row, in row order |
| Printer.Broadcast | ultimonitor/printer.py:222-245 | numpy broadcasting of target − current: defined iff the lengths agree or one is 1; for equal lengths it is the elementwise deviation; never negative |
| Printer.ChannelOf | ultimonitor/printer.py:220-245 | median and std of the temperatures, min/avg/max/std of the deviations, with 0 ≤ min ≤ avg ≤ max; an error on a shape mismatch or no samples |
| Printer.ChannelErrors | ultimonitor/printer.py:220-245 | a shape error exactly when the column lengths differ and neither is 1, an empty-series error exactly when they broadcast to nothing |
| Printer.PollStatsOf | ultimonitor/printer.py:218-267 | no Time samples raise; otherwise CalculationTime is the last Time minus the first and every channel's statistics are ordered |
| Printer.TempStatsOf | ultimonitor/printer.py:183-272 | `{}` exactly when the query failed; a row wider than the labels raises |
| Printer.TempStats | ultimonitor/printer.py:183-272 | the loop computes `TempStatsOf` |
| Printer.RowDeviations | ultimonitor/printer.py:222-245 | one deviation per sample row |
| Printer.UniformDeviations | ultimonitor/printer.py:222-245 | for full rows the broadcast deviation series is |target − current| read straight off each row |
| Printer.WellFormedTable | ultimonitor/printer.py:183-272 | a non-empty table of full rows always yields statistics, with CalculationTime the span of the Time column |
| Printer.NoRowsNoStats | ultimonitor/printer.py:218 | a reply with no sample rows raises on the Time column |
| Printer.EmptyLists | Clausius.py:29-48 | three channels of six empty lists |
| Printer.AccumulateChannel | ultimonitor/printer.py:278-286 | still six lists |
| Printer.Accumulate | ultimonitor/printer.py:278-286 | the shape is kept: three channels of six lists |
| Printer.AccumulateAppendsOne | ultimonitor/printer.py:278-286 | every list gains exactly the current poll's value at its end and keeps its earlier values |
| Printer.EmptyConsistent | Clausius.py:29-48 | a fresh accumulator holds zero polls |
| Printer.AccumulateConsistent | ultimonitor/printer.py:278-286 | collapsing an ordered poll keeps every list the same length, one poll longer, with min ≤ avg ≤ max at every position |
| Printer.SummaryBounds | ultimonitor/printer.py:288-304 | the job figures are bounded by the per-poll lists: min of mins, max of maxes, means of means between their lists' extremes |
| Printer.SummaryOrdered | ultimonitor/printer.py:288-304 | after at least one poll, 0 ≤ DeviationMin ≤ DeviationAvg ≤ DeviationMax for every channel |
| Printer.SingleChannel | ultimonitor/printer.py:288-304 | one poll of one channel summarises to that poll's own figures |
| Printer.SinglePoll | ultimonitor/printer.py:275-304 | a single collapsed poll's job figures are that poll's own |
| Printer.MeanOfMeansIsNotPooledMean | ultimonitor/printer.py:291-304 | DeviationAvg is an unweighted mean of per-poll means, which differs from the mean of all samples |
| Printer.TempAccumulator.constructor | Clausius.py:24-55 | every list empty, no time accumulated |
| Printer.TempAccumulator.Collapse | ultimonitor/printer.py:275-321 | `{}` raises and changes nothing; otherwise one value is appended to every list, CalculationTime is added, and the job figures are returned, ordered |
| Printer.JobParametersOf | ultimonitor/printer.py:105-146 | present only while printing, and then only if every reply came back; progress is the fraction × 100 and times are seconds / 3600 |
| Printer.ProgressPercent | ultimonitor/printer.py:123 | a fraction in [0, 1] gives a percentage in [0, 100] |
| Printer.Describe | ultimonitor/printer.py:56-57 | "name brand colour (diameter mm, density g/cm^3)" |
| Printer.MaterialWordsReadBack | ultimonitor/printer.py:56 | the name, brand and colour read back from "name brand colour", separated by single spaces |
| Printer.DescribeMetaReadBack | ultimonitor/printer.py:56-57 | the name, brand and colour read back at their places, each followed by its separator |
| Printer.DescribePropsReadBack | ultimonitor/printer.py:56-57 | the diameter and density read back after the colour, followed by " mm, " and " g/cm^3)" |
| Printer.GetMaterial | ultimonitor/printer.py:26-59 | the description starts with the material's name, brand and colour, or with UNKNOWN three times when the metadata is missing |
| Printer.MaterialIsDescribe | ultimonitor/printer.py:26-57 | the description of the material's name, brand, colour, diameter and density, each UNKNOWN when its part of the lookup is missing |
| Printer.MaterialMetaReadBack | ultimonitor/printer.py:26-57 | in every metadata/properties combination the name, brand and colour, or UNKNOWN for each, read back from the description |
| Printer.MaterialPropsReadBack | ultimonitor/printer.py:26-57 | in every metadata/properties combination the diameter and density, or UNKNOWN for each, read back from the description |
| StatusTables.FlowStateWords | Printzini.py:47-57 | defined exactly for codes 0, 1 and 10-17; 0 and 1 are "printing", 10-17 follow the table in order; never "unknown" |
| StatusTables.StatusColor | Printzini.py:62-73 | defined exactly for the flow-state words and error, maintenance, booting; each is mapped to a palette name rather than the HSV value the launcher stores |
| StatusTables.ColorsCoverEveryStatus | Printzini.py:48-73 | the colour table's keys are the flow-state words plus the three coarse-only statuses |
| StatusTables.SharedColors | Printzini.py:64-72 | pausing/resuming, paused/maintenance and wait_user_action/error share a colour |
| StatusTables.FlowWordsAreLowerCase | Printzini.py:48-57 | every flow-state word is lower case, so `.lower()` leaves it unchanged |
| StatusTables.CoarseWordsAreLowerCase | ultimonitor/monitoring.py:217 | the coarse-only statuses are lower case |
| Classes.JobInProgress.constructor | ultimonitor/classes.py:19-34 | six unset notice flags and every other field None |
| Classes.ThreeDimensionalPrinter.constructor | ultimonitor/classes.py:37-43 | enabled, with no address, type or credentials |
| Classes.JobNoticesShape | ultimonitor/classes.py:24-29 | six keys, all unset; the last is "completed", not "end" |
| Leds.HexValue | ultimonitor/leds.py:52-53 | one hex digit is below 16, two below 256 |
| Leds.ParseHexDigits | ultimonitor/leds.py:52-53 | `int(s, 16)` of plain hex digits is their value |
| Leds.HexChunks | ultimonitor/leds.py:52-53 | one value per two characters, each in 0..255 for hex text |
| Leds.ParseRgb | ultimonitor/leds.py:52-53 | three values when it succeeds |
| Leds.HexChunksPair | ultimonitor/leds.py:52-53 | the first chunk is the value of the first two digits |
| Leds.ParseHexColor | ultimonitor/leds.py:52-53 | a well-formed "#RRGGBB" gives the values of RR, GG and BB, each in 0..255 |
| Leds.HexPair | ultimonitor/leds.py:33-47 | two hex digits whose value is the channel value |
| Leds.RenderHex | ultimonitor/leds.py:33-47 | "#" and six hex digits whose pairs read as the triple |
| Leds.ParseRenderHex | ultimonitor/leds.py:52-53 | parsing a rendered triple gives it back |
| Leds.ParseHexTriple | ultimonitor/leds.py:52-53 | a "#RRGGBB" whose pairs read as a triple parses to that triple |
| Leds.PaletteNamesAreKeys | ultimonitor/leds.py:33-51 | the loop visits fifteen distinct names, exactly the palette's keys |
| Leds.WellFormedFirst | ultimonitor/leds.py:33-37 | the first five palette entries are "#" and six hex digits |
| Leds.WellFormedSecond | ultimonitor/leds.py:38-42 | the next five palette entries are "#" and six hex digits |
| Leds.WellFormedThird | ultimonitor/leds.py:43-47 | the last five palette entries are "#" and six hex digits |
| Leds.HappyColorsParse | ultimonitor/leds.py:33-53 | every palette entry parses to three values in 0..255 |
| Leds.Palette | ultimonitor/leds.py:23-72 | the converted palette has the same names, each mapped to its parsed triple |
| Leds.ConvertAll | ultimonitor/leds.py:51-53 | the loop succeeds iff every entry parses, and then maps every name to its parsed value |
| Leds.PaletteComplete | ultimonitor/leds.py:33-53 | the conversion of this palette always succeeds |
| Leds.FirstOffense | ultimonitor/leds.py:85-94 | the first position from i on whose property is not 'blink' and differs from the desired value |
| Leds.LedCheck | ultimonitor/leds.py:75-99 | a status with no colour or a colour with no palette entry raises; otherwise the desired value is PUT iff the scan finds a difference |
| Leds.ChangeIffSomeDiffers | ultimonitor/leds.py:82-94 | a change is requested iff some non-'blink' property differs from the desired value |
| Leds.EmptyReadingNoChange | ultimonitor/leds.py:79-88 | an empty reading (unreachable printer) never requests a change |
| Leds.BlinkIgnored | ultimonitor/leds.py:87 | the 'blink' value never changes the verdict |
| Leds.FirstOffenseAgree | ultimonitor/leds.py:85-94 | only which positions agree decides the scan's result |
| Email.SubjectTail | ultimonitor/email.py:40-66 | defined exactly for the five milestone types |
| Email.Intro | ultimonitor/email.py:40-66 | defined exactly for the five milestone types |
| Email.SubjectHead | ultimonitor/email.py:40-66 | the subject's shared part embeds the job name and then the job id |
| Email.Body | ultimonitor/email.py:69-73 | introduction, status text, footer and signature in that order, with blank lines between them |
| Email.StatusRecoverable | ultimonitor/email.py:69-73 | for a fixed introduction and footer, different status texts give different bodies |
| Email.MakeEmailUpdate | ultimonitor/email.py:25-108 | no configuration gives None; an unknown type raises; otherwise subject and body are built for that type, from the configured sender to the configured recipient |
| Email.TailsDistinct | ultimonitor/email.py:40-66 | the five subject endings differ |
| Email.SubjectsDistinct | ultimonitor/email.py:40-66 | for one job the five milestone mails have five different subjects |
| ApiTools.ApiBase | ultimonitor/apitools.py:57-60 | an address starting with "http" is used as it is, any other becomes "http://<ip>/api/v1/" |
| ApiTools.ApiBaseIdempotent | ultimonitor/apitools.py:57-60 | a base used as an address is its own base |
| ApiTools.RequestUrl | ultimonitor/apitools.py:62 | the base followed directly by the endpoint |
| ApiTools.QueryChecker | ultimonitor/apitools.py:54-81 | the decoded body exactly when the GET answered with `goodStatus`, `{}` otherwise |
| ApiTools.UnreachableGivesEmpty | ultimonitor/apitools.py:64-69 | a GET that raises always gives `{}` |
| ApiTools.SetProperty | ultimonitor/apitools.py:23-51 | a PUT answered with `goodStatus` succeeds, any other status is logged as a failure, and an exception escapes |
| Dbq.Hours | dbq.py:35-40 | an integer is used as it is; text is read with `int()`, falling back to 1 |
| Dbq.HoursOfText | dbq.py:35-40 | an hour count given as its decimal text reads back exactly |
| Dbq.TagTerms | dbq.py:85-89 | one term per tag value |
| Dbq.QueryOf | dbq.py:24-96 | None exactly when the database type, lower-cased, is not "influxdb" |
| Dbq.SelectList | dbq.py:60-77 | the field loop builds the select list of `FieldsClause` |
| Dbq.TagCondition | dbq.py:82-94 | the tag branch builds the condition of `TagClause` |
| Dbq.QueryConstructor | dbq.py:24-96 | the statement is `QueryOf` |
| Dbq.StartsWithSelect | dbq.py:60 | every statement starts with SELECT |
| Dbq.WhereHoursReadBack | dbq.py:80 | the zero-padded hour count reads back as the window asked for |
| Dbq.NoTagNameNoClause | dbq.py:51-55 | without a tag name the statement ends with the WHERE clause |
| Dbq.FieldsUpToSep | dbq.py:61-72 | before the last field, the loop writes each stripped term followed by "," |
| Dbq.FieldListClause | dbq.py:61-72 | a non-empty list of fields with labels gives the terms (with " AS " and the label while labels last) joined by "," and then a space |
| Dbq.TagListClause | dbq.py:83-90 | a list of values gives " AND (" + terms joined by " OR " + ") GROUP BY" the tag |
| Dbq.TagScalarClause | dbq.py:91-94 | a single value gives `AND ("tag"='v')`: the tag and the value read back between their quotes, and the clause ends in `')` with no GROUP BY |
| Dbq.ScalarIsNotGrouped | dbq.py:83-94 | a scalar value never gives the condition of a non-empty list: only the list ends in GROUP BY the quoted tag |
| Dbq.TypeCaseInsensitive | dbq.py:42 | the database type is compared without regard to case |
| Clausius.PassOf | Clausius.py:58-72 | a failed status check gives nothing; a failed query makes `collapseStats` raise |
| Clausius.TempStatsOrdered | Clausius.py:67-71 | a poll's statistics are always ordered, so they can be collapsed |
| Clausius.StartCollectionsPass | Clausius.py:58-72 | one pass with a fresh accumulator computes `PassOf` |
| Clausius.OneValuePerList | Clausius.py:67-71 | after a pass every list holds exactly one value |
| Clausius.PassReportsThePoll | Clausius.py:67-71 | a pass reports the poll's own time span and, for extruder 0, extruder 1 and the bed, the deviations' average, spread, minimum and maximum |
| Stats.Abs | ultimonitor/printer.py:222-245 | non-negative, and equal to x or −x |
| Stats.Min | ultimonitor/printer.py:225 | an element no larger than any other |
| Stats.Max | ultimonitor/printer.py:226 | an element no smaller than any other |
| Stats.SumBetween | ultimonitor/printer.py:227 | a sum of n values lies between n times any lower and any upper bound |
| Stats.MeanBetween | ultimonitor/printer.py:227 | a mean of values between two bounds lies between them |
| Stats.AverageBetween | ultimonitor/printer.py:227 | the average lies between any bounds of its elements |
| Stats.AverageBetweenMinAndMax | ultimonitor/printer.py:225-227 | min ≤ average ≤ max |
| Stats.Deviations | ultimonitor/printer.py:222-223 | elementwise |target − current|, one per sample |
| Stats.DeviationStatsOrdered | ultimonitor/printer.py:222-227 | 0 ≤ min ≤ average ≤ max of the deviations |
| Stats.SingleSample | ultimonitor/printer.py:225-227 | for one sample, min, max and average are that sample |
| Text.LowerChar | ultimonitor/monitoring.py:224 | upper-case letters become lower case, every other character is kept |
| Text.Lower | ultimonitor/monitoring.py:224 | same length, each character lowered |
| Text.LowerOfLowerCase | ultimonitor/monitoring.py:224 | lowering a lower-case string changes nothing |
| Text.LowerIdempotent | dbq.py:42 | lowering twice is lowering once |
| Text.PrefixStartsWith | ultimonitor/apitools.py:57 | a string starts with its own prefix |
| Text.TrimLeft | dbq.py:65 | does not start with white space |
| Text.TrimRight | dbq.py:65 | a prefix of the input that does not end with white space |
| Text.TrimLeftDropsSpace | dbq.py:65 | only white space is dropped from the front |
| Text.TrimRightDropsSpace | dbq.py:65 | only white space is dropped from the back |
| Text.Strip | dbq.py:65-86 | neither starts nor ends with white space |
| Text.StripUntouched | dbq.py:65-86 | a string with no white space at either end is its own strip |
| Text.StripIdempotent | dbq.py:65-86 | stripping twice is stripping once |
| Text.BeforeFirst | ultimonitor/monitoring.py:240 | the longest prefix without the separator, stopping at its first occurrence |
| Text.NatToString | dbq.py:80 | decimal digits with no leading zero |
| Text.IntToString | dbq.py:80 | a leading '-' exactly for negative numbers |
| Text.DigitsOfNat | dbq.py:80 | the digits of n read back as n |
| Text.LeadingZero | dbq.py:80 | a leading zero does not change the value |
| Text.ParseInt | dbq.py:37 | succeeds only on text that is not blank |
| Text.ParseIntOfIntToString | dbq.py:35-40 | `int()` of the `%d` text of n is n |
| Text.Pad2 | dbq.py:80 | at least two characters |
| Text.ParseIntOfPad2 | dbq.py:80 | `int()` of the `%02d` text of n is n |
| Text.SepUpToJoin | dbq.py:62-72 | writing the parts one by one with separators between them is `sep.join` |

## Left out

- HTTP, SMTP and cameras. Requests are functions from URL to an outcome, and
  `statusCheck`'s replies are inputs. `constructMail`, `sendMail`, the camera
  snapshots and the attachments (ultimonitor/email.py:75-103,
  ultimonitor/monitoring.py:279-283) are not modelled; a mail is a returned
  value.
- JSON and XML decoding: replies arrive already decoded.
- The InfluxDB client and the pandas reshaping (dbq.py:99-156), because they
  are foreign library I/O.
- Configuration loading (ultimonitor/confparser.py, the footer read in
  printzini.py), because it is file I/O. The mail configuration and footer are
  inputs.
- The sleep and halt loop (ultimonitor/monitoring.py:295-302), printing and
  logging: one pass is modelled, and a run is a sequence of passes.
- Clausius's endless loop, also modelled as one pass.
- Monitoring.CheckJob: does not model the ValueError of `strptime`
  (ultimonitor/monitoring.py:137-139). `strptime` parses the printer's
  TimeStart reply as "%Y-%m-%dT%H:%M:%S" on every new job, and it raises on
  any other shape, such as fractional seconds, a zone suffix or an empty
  string. The model assumes the printer's timestamp is well formed, so a new
  job never fails there. The parsed time and the `utcnow` clock read
  (line 140) fill a record that is thrown away, so they are not modelled
  either.
- The colorsys RGB→HSV conversion and the brightness scaling
  (ultimonitor/leds.py:54-67), because they are floating-point. The HSV palette
  is an input to `LedCheck`.
- `round(·, 6)` of the job figures (ultimonitor/printer.py:306-319), because it
  is floating-point rounding.
- `np.median` and `np.std`: uninterpreted function parameters.
- `formatStatus` (ultimonitor/printer.py:152-180), because it is `%.3f`
  rendering. Its text is an input.
- The printer-identity and print-setup fields of `statusCheck`: only the status
  and JobParameters are used by the core.
- `getMaterial`'s XML lookup: the parsed metadata and properties are inputs.
- Wiring that cannot run as written is modelled as the evidently intended call:
  - `printer.tempFlow` does not exist, so the flow-state code is an input;
  - the `fill=` argument to `queryChecker` is ignored;
  - `ledCheck` takes the LED reading and the palette as arguments;
  - the configuration keys are ignored;
  - the legacy `makeEmailUpdate` call is ignored.
  - Printzini.py's status table (Printzini.py:62-73) stores the palette's HSV
    dict under each status, not a palette name. `ledCheck`'s second lookup,
    `hsvColors[statusColors[statusStr]]` (ultimonitor/leds.py:80), would then
    raise TypeError, because a dict cannot be a key. `StatusTables.StatusColors`
    keeps that table's keys and maps each one to its palette name, as
    printzini.py:53-63 does.
- The source crashes on every pass that is not printing: `statusCheck` adds no
  JobParameters key then (ultimonitor/printer.py:143-146), so
  `stats['JobParameters']` (ultimonitor/monitoring.py:209) raises KeyError
  before the LED check. `Monitoring.SnapshotStep` and
  `Monitoring.IdlePollChangesNothing` model the evidently intended guard that
  reads the key only when it is there.
- When the bed query fails while printing, `bedtemp['current']`
  (ultimonitor/printer.py:131) raises KeyError, before the unbound `ext2temps`
  is read. `Printer.JobParametersOf` returns that error as BedUnavailable.
- Python's `str.lower()` and `str.strip()` are modelled for ASCII only:
  non-ASCII letters are not lowered, and non-ASCII white space (0x85, 0xa0 and
  the other Unicode spaces) is not stripped. `Text.ParseInt` also rejects the
  `_` digit separators that `int()` accepts.
- Monitoring.Monitor.Poll and PrintziniLegacy.Printzini.Poll: an exception
  leaves the model's state as it was before the pass. In the source it ends
  the loop, and the model does not say what happens next.
- PrintziniLegacy.Printzini.Poll returns the LED status and the notice. It does
  not call `ledCheck` and does not send the mail itself; mail squashing
  (printzini.py:46, 196-201) only decides whether that notice is sent.

# The measurement client, verified

A model in Dafny of the command-line measurement client: a timer thread, a number of transfer workers,
a report aggregator and a sequencer that share a handful of global variables. The client runs the tests
IP, RTT (echo requests over UDP), download and upload one after the other, reports every half second,
and signals completion. `dafny verify dfyconfig.toml` checks everything.

The model has two layers.

**The algorithms**, as the code writes them: classes and methods with the code's own variables and
loops, each proved equal to a function of its inputs, and theorems about those functions.

| module | source | what it is |
|---|---|---|
| `UploadSender` (with `NumberTheory`) | `src/tests/upload_sender.cpp` | the pointer that cuts packets out of a random buffer |
| `Download` | `src/tests/download.cpp` | receive loop: buckets, totals, slow start |
| `Upload` | `src/tests/upload.cpp` | record loop: election of the first key, pre-fill, buckets |
| `Ping` | `src/tests/ping.cpp` | echo loop: warm-up, replies, missing, errors |
| `Aggregator`, `Reports` (with `OrderedMaps`) | `src/callback.cpp` | the nested loops of a report, and what its entries mean |
| `Timer` | `src/timer.cpp` | barrier, tick, report, stop, error and finish |
| `Client` | `src/ias_client.cpp`, `src/measurement.cpp`, `src/callback.cpp` | callback object, sequence of tests, set-up of one measurement |

**The interleaved system** (`Session`): a state, the steps of every thread, and `After(c, zero, acts)`,
the state after any sequence of steps from a start at time `zero`. An action that is not possible leaves
the state as it is, so a statement about all `acts` is a statement about every interleaving of the timer,
the workers, the report under way, the sequencer, the clock, and a caller who stops or aborts the client
at any moment. The steps are the functions the algorithms are proved equal to: the timer makes
`Timer.Step`, which `CTimer.Run` refines; a worker is represented by the history of chunks or records it
has accounted, and what a report reads of it is `Download.AccountAll` or `Upload.ProcessAll` of that
history, which `Download.Run` and `Upload.Run` compute; a report consists of the readings that
`Aggregator.Calculate` turns into entries. `Protocol` is a small automaton of the allowed callbacks,
`Conformance` proves that every run follows it, and `Invariants`, `Clocks`, `Histories`, `Stability`,
`Times`, `Course` and `Witnesses` hold the inductive invariants. `Guarantees`, `Sums`, `Aftermath`,
`Budget`, `Lifetimes`, `Elapsed`, `Causes` and `Workers` state what follows for every run, and `LateRecords` what
late upload records do to earlier reports. `Possibility` shows that every configuration with an enabled test has a run that completes;
`Scenarios` and `PingRuns` build runs in which the hypotheses of the guarantees occur (two download reports,
a ping test without a late turn), and runs in which properties fail that the code does not have.
`MeasurementStart` is related to the system by the states in which the
sequencer decides: it makes exactly the decisions of `DoDecide`.

Assumptions of the system layer: at least one stream and one second per measurement (`Sane`), worker
threads have distinct identifiers, the clock does not go back. One receive-and-account block of a worker
is one step, and so are a look of the timer together with the callback or flag it leads to, the setting
of an error flag together with `hasError`, the clearing of the barrier map together with the timer's
constructor, the creation of all workers of a test, and the reading of one stream for one step of a
report. Between any two of these, every other thread may move. The workers of a test are deleted once they
have ended and the result is there, an error is flagged or the client was stopped, although the timer may still
read them. A deleted stream reads as what it held last: in the code such a read is undefined, so the statements
about entries and rows of reports (`DownloadPrefixStable`, `DownloadConserved`, `UploadConserved`, `RelativeTimes`
and those of `Sums`) hold of the code for rows that were read before the deletion. `Lifetimes` says exactly when a
row may not have been.

## Results

*Reports of a download are prefix-stable.* Whatever an earlier report says about a step and a stream,
every later report and the final result repeat it (`Stability.DownloadPrefixStable`), although the
workers never pause and a report reads them one by one.

*Every run follows the callback protocol* (`Conformance.RunsAreAccepted`). Tests are made one at a time
in order, finishes are a prefix of the enabled tests, completion is signalled exactly when all of them
have finished, and an error callback is the last callback of all. Reports have exactly as many steps as
half seconds have passed; a final result has all of them.

*No report contains a time that an unsigned subtraction wrapped*, and the times of a stream advance by
exactly half a second plus the time between two readings (`Times.RelativeTimes`).

*Every time is measured from the right moment* (`Elapsed.EntryTimes`): the elapsed time of an entry runs from the
moment its own worker registered, and the time of the measurement from the start of the client, both up to the
moment the clock was read for the row. The clock of a test starts no earlier than its start-up delay after all its
workers were ready (`Elapsed.StartsAfterDelay`).

*Every error is reported as what it is* (`Causes.ErrorMeans`, `Causes.CheckReports`): behind each error code lies the
event it names, and a check that meets its flag reports that code. The client only stops for a reason
(`Causes.StopsFor`), and behind a stop no worker begins another receive (`Workers.NothingBegins`).

*What the workers store is what they received* (`Workers.LogsAlways`), each chunk and record with the clock, the
error flag and the elected key it met; `Download.Download.Run` gives totals and buckets in received bytes and TLS
records.

*Byte counts add up*, although every row of a report reads the streams anew. In every download report,
the bytes of a stream grow from row to row by the bytes of the new step, and the single steps sum to the
count (`Sums.ReportSums`). Every aggregate of every report is exact (`Sums.AggregatesAddUp`), and upload
streams line up in it (`Sums.UploadLinesUp`).

*The clock never ends a ping test* in which no echo turn takes longer than its receive timeout and its pause:
no poll stops it (`Budget.PingNotCutShort`), and it only ends with the worker's own last turn
(`Budget.PingEndsItself`). `PingRuns.PromptPing` is such a run, and `PingRuns.LatePing` one in which a late turn
lets the clock end the test.

*Properties the code does not have* are kept as they are, each with an input or a run, and with the exact
condition under which the code does have them. A stream has a moving server clock if the keys of its records
increase, none is short, and none meets an error flag (`Upload.IncreasingKeys`).

| property | fails in | holds exactly if |
|---|---|---|
| byte counts of a final download result add up from row to row | `Scenarios.FinishDoesNotAddUp` | the step lies behind the tick at which the timer stopped, or nothing the stream accounted between its two readings reached a bucket (`Sums.FinishSums`) |
| byte counts of an upload report or result add up from row to row | `Scenarios.UploadDoesNotAddUp` | for a stream with a moving server clock: no first key was elected by the later row, or no record with data that the earlier row has counted nothing of lies under a key it counts then (`Sums.UploadRows`) |
| a download entry and the buckets to come account for everything received | `Scenarios.BeforeStartIsLost`, `Scenarios.ErrorHidesData` | nothing was received after the start with an error flagged, and either nothing was received at all or some chunk landed in bucket 0; what is missing otherwise is given exactly (`Guarantees.DownloadConserved`) |
| upload reports are prefix-stable | `Scenarios.UploadReportsDisagree` | for a stream with a moving server clock: no record with data that the earlier reading has counted nothing of lies under a key the step counts later, and the stream has not, in between, met the elected key with data below it (`Sums.UploadReports`) |
| an upload stores everything acknowledged | `Upload.RepeatedFirstKeyLoses` | for well-formed records without an error flag: no record with the elected key follows data in the window it clears (`Upload.Conservation`); for any history, `Upload.HistoryLedger` gives the balance |
| completion means that no error is flagged | `Scenarios.CompletesWithError` | no step of the last result met only streams without data, and since that result was begun nobody aborted the client and no worker threw (`Aftermath.ErrorAfterCompletion`) |
| a report only reads streams that still exist | `Scenarios.ReadsDeletedStream` | at that moment some worker of the test has not ended, or the client still runs without an error (`Lifetimes.DeletedInCallback`) |
| the upload sender stays within its buffer | any buffer of less than two packets | the buffer holds two packets (`UploadSender.WindowsFitIff`) |

An upload entry never claims more than the server acknowledged, whatever keys its records carry, if the
server's clock moves on (`Guarantees.UploadConserved`).

The download loop, taken on its own, would count a first chunk twice if nothing arrived before the start
(`Download.ConservedIff`, `Download.DoubleCount`); the start barrier excludes that history
(`Guarantees.DataBeforeStart`).

## Model

| member | source | states |
|---|---|---|
| `UploadSender.Run` | src/tests/upload_sender.cpp:40-64 | the loop sends the windows of the closed description; each while the client runs without an error, none after a send that failed or sent nothing or after a stop, and it ends before its turns do only for one of these reasons; the unsigned pointer never goes below zero |
| `UploadSender.WindowsFitIff` | src/tests/upload_sender.cpp:45-51 | every window of a run of any length lies in the buffer iff the buffer holds at least two packets |
| `UploadSender.WindowsAreFitting` | src/tests/upload_sender.cpp:40-53 | the windows are, in order, exactly the fitting elements of the progression 1, 1+M, 1+2M, ... reduced into 1..S |
| `UploadSender.OffsetPeriod` | src/tests/upload_sender.cpp:45-53 | two elements of that progression agree iff their positions differ by a multiple of S/gcd(S,M) |
| `UploadSender.OffsetReached` | src/tests/upload_sender.cpp:45-53 | every offset congruent to 1 modulo gcd(S,M) is met exactly once in each period |
| `UploadSender.FittingDistinct` | src/tests/upload_sender.cpp:45-53 | within one period no window starts twice at the same byte and no fitting element is left out |
| `UploadSender.WindowsExactly` | src/tests/upload_sender.cpp:40-53 | a byte is the start of some window iff the window fits and the byte is congruent to 1 modulo gcd(S,M) |
| `Ping.Ping.Verify` | src/tests/ping.cpp:211-218 | a reply is accepted iff it is a prefix of what was sent |
| `Ping.Ping.Run` | src/tests/ping.cpp:71-250 | after the loop, missing, replies and errors are the numbers of the turns after the warm-up without a reply, with a mirrored payload and with a wrong one; both maps are those of the turns made; at most one turn more than queries, none after a stop |
| `Ping.Accounting` | src/tests/ping.cpp:199-247 | a turn without a reply counts as missing, one with a payload that mirrors what was sent as a reply, any other as an error, and together they are the turns without the warm-up |
| `Ping.Stored` | src/tests/ping.cpp:227-238 | the stored keys are those of the accepted replies, as many as replies, the same in both maps |
| `Ping.StoredValue` | src/tests/ping.cpp:229-238 | each stored round-trip time is that of its own turn: the adding branch never adds |
| `Ping.ProgressComplete` | src/callback.cpp:255-260 | progress stays in 0..1, never falls, and is 1 iff all turns were made |
| `Budget.PingNotCutShort` | src/tests/ping.cpp:104 | in every run in which an echo turn takes at most its receive timeout and its pause, no poll of the timer ends the ping test, unless the client was stopped or an error flagged |
| `Budget.PingEndsItself` | src/tests/ping.cpp:71-250 | in such a run, when the ping test has ended and the client still runs without an error, the worker has left its loop after all its turns |
| `PingRuns.PromptPing` | src/tests/ping.cpp:104 | every configuration with a ping test has an undisturbed run of that kind, polled during the test, in which the worker makes all its turns |
| `PingRuns.LatePing` | src/timer.cpp:145-148 | and one with a late turn in which the clock ends the test before a turn is complete |
| `Download.Download.Prefill` | src/tests/download.cpp:164-170 | totals 0 and zero buckets 0..2D |
| `Download.Download.Accumulate` | src/tests/download.cpp:195-209 | one receive is accounted as one chunk: eight bits for each byte and each byte of TLS framing |
| `Download.Download.Run` | src/tests/download.cpp:172-210 | until a receive brings nothing, the total is eight times the received bytes and the framing of the received TLS records, and the bucket of a tick the part of it that met the tick with the timer running and no error; the barrier entry is raised with the first receive |
| `Download.Ledger` | src/tests/download.cpp:198-203 | the total is what came before the start, what lies in buckets and what an error suppressed |
| `Download.SlowStart` | src/tests/download.cpp:205-208 | with data before the start the slow start is exactly that data from the first chunk of bucket 0 on |
| `Download.ConservedIff` | src/tests/download.cpp:199-209 | for the loop alone: slow start plus buckets plus suppressed bits is the total iff data before the start and data in bucket 0 agree |
| `Download.Shortfall` | src/tests/download.cpp:199-209 | with data before the start, exactly that data is missing if no chunk landed in bucket 0, and nothing otherwise |
| `Download.SameTick` | src/tests/download.cpp:201-203 | chunks that meet one tick move the bucket of that tick by their counted bits, and no other |
| `Download.WholeBytes` | src/tests/download.cpp:198-207 | total, slow start and buckets stay multiples of 8 |
| `Upload.Upload.PrefillWindow` | src/tests/upload.cpp:240-243 | the stride-5 loop clears exactly the half-second grid of the measurement |
| `Upload.Upload.ElectFirst` | src/tests/upload.cpp:227-236 | an elected key is never replaced; another stream's election is taken over; the stream's own key is elected only while the timer runs |
| `Upload.Upload.OneRecord` | src/tests/upload.cpp:218-262 | one record has the effect of parse, election, pre-fill and store, short records and errors included; in fields, a full record leaves its bits and its key and adds to the total, a short one leaves all three as they were |
| `Upload.LastRecord` | src/tests/upload.cpp:218-241 | whatever came before, the last record leaves its own bits and key, or, when it is short, those of its predecessor |
| `Upload.LastBucket` | src/tests/upload.cpp:243-262 | without an error the bits join the bucket of their key, which starts from nothing when the key is the elected one; with an error no bucket grows |
| `Upload.Upload.Run` | src/tests/upload.cpp:212-263 | the record loop stores the fold of its records |
| `Upload.StepLedger` | src/tests/upload.cpp:218-262 | the balance of one record: nothing is lost or made up but what pre-fill erases, errors suppress and short records repeat |
| `Upload.HistoryLedger` | src/tests/upload.cpp:218-262 | the same balance over any history, with short records and errors |
| `Upload.Conservation` | src/tests/upload.cpp:218-262 | for well-formed records the total equals the sum of the buckets iff no record clears data, and until then each bucket holds what its records brought |
| `Upload.RepeatedFirstKeyLoses` | src/tests/upload.cpp:238-244 | two records with the elected key lose the first one's bytes |
| `Upload.FirstStays` | src/tests/upload.cpp:227-236 | the election is write-once, and a reached first key is the key of a record |
| `Upload.KeySet` | src/tests/upload.cpp:238-256 | the keys of the map are those of the records and, once the elected key was reached, its window |
| `Upload.GridKeys` | src/tests/upload.cpp:238-256 | with later keys on the grid, the keys from the elected key F on are exactly F, F+5, ..., F+10D |
| `Upload.AllStored` | src/tests/upload.cpp:218-262 | with a server clock that moves on, every acknowledged bit lies in a bucket |
| `Upload.SlowStartBelow` | src/tests/upload.cpp:257-260 | with such a clock the slow start is the sum of the buckets below the elected key from the moment it is reached |
| `Upload.SlowStartOnce` | src/tests/upload.cpp:257-260 | whatever the records, a slow start that has been found is never found again |
| `Aggregator.ClampSteps` | src/callback.cpp:323-340 | the largest number of steps that have fully passed and fit the measurement: no step more would do both |
| `Aggregator.Walk` | src/callback.cpp:429-462 | the walk over one stream's map leaves the tally of its counted buckets |
| `Aggregator.TallyIs` | src/callback.cpp:438-460 | that tally is the sum over the first buckets up to the step; later buckets leave no trace |
| `Aggregator.OneStream` | src/callback.cpp:362-484 | one stream of one step: its counters, its step, stream and three times, and the aggregate extended by it, with the times of the last stream |
| `Aggregator.OneStep` | src/callback.cpp:344-485 | one step: all entries, the aggregate, and the number of streams whose last receive brought data |
| `Aggregator.Calculate` | src/callback.cpp:323-532 | a whole report: the entries of all steps and streams, and whether streams were dropped |
| `Reports.BytesExact` | src/callback.cpp:449 | bytes times 8 never exceeds the bits and equals them iff all buckets hold whole bytes |
| `Reports.NextCell` | src/callback.cpp:449-465 | two consecutive entries of a stream, each with its own reading, add up iff the two readings agree on the bytes of the earlier step |
| `Reports.DistinctsSum` | src/callback.cpp:452-455 | rows that add up one by one have distinct bytes that sum to the byte count of the last one |
| `Reports.EntryAt` | src/callback.cpp:342-485 | a report has steps*streams entries, and the entry of stream k at a step stands at position (step-1)*streams+k |
| `Reports.ColumnAt` | src/callback.cpp:438-447 | position i of the aggregate is the i-th half second of all streams, and nothing beyond the step |
| `Reports.AggregateSums` | src/callback.cpp:475-480 | the aggregate total is its slow start plus its bytes |
| `Reports.AggregateExact` | src/callback.cpp:495 | `bytes_aggregate*8` is the sum of the aggregate buckets iff all counted buckets hold whole bytes |
| `Reports.AggregateIs` | src/callback.cpp:475-480 | the aggregate of a step holds the sums of the bytes, distinct bytes, slow starts and totals of its entries, and the times of its last stream |
| `Reports.AggregateAt` | src/callback.cpp:534 | the list of aggregates has one per step, in order |
| `Reports.DownloadPositions` | src/callback.cpp:429-462 | counting by position is lookup by tick: the i-th counted bucket is bucket i-1 |
| `Reports.CountedKept` | src/callback.cpp:429-462 | once a first key is elected, exactly the buckets from that key on are counted, in key order |
| `Reports.UploadPositions` | src/callback.cpp:429-462 | the i-th counted bucket of an aligned upload stream is the one at key F+5(i-1) |
| `Reports.UploadWholeBytes` | src/tests/upload.cpp:224 | everything an upload worker stores is a multiple of 8 |
| `Reports.UploadTotal` | src/callback.cpp:433-467 | with a moving server clock, `bytes_total` never exceeds what the server acknowledged; once the elected key was met, it and the buckets still to come are exactly that |
| `Reports.DownloadDomain` | src/tests/download.cpp:167-203 | writes below the bound keep the map's domain 0..2D |
| `Reports.DownloadTotal` | src/callback.cpp:464-467 | the total of a download entry and the buckets still to come are slow start and buckets, which is what was received iff `ConservedIff`'s condition holds |
| `Timer.CTimer.constructor` | src/timer.cpp:33-52 | every global an earlier test may have left is reset |
| `Timer.CTimer.CountReady` | src/timer.cpp:100-111 | the loop counts the barrier entries that are 1 |
| `Timer.CTimer.ReadClock` | src/timer.cpp:140-150 | the poll stops the test iff the duration has passed, and then leaves the tick alone; otherwise the tick counts the full half seconds, below twice the duration |
| `Timer.CTimer.CheckUnreachable` | src/timer.cpp:70-78 | an unreachable peer that was not reported yet is reported as error 7 and stops the test |
| `Timer.CTimer.CheckForbidden` | src/timer.cpp:79-87 | a refusal as error 4 |
| `Timer.CTimer.CheckTls` | src/timer.cpp:88-96 | missing TLS parameters as error 8 |
| `Timer.CTimer.DoPoll` | src/timer.cpp:130-157 | one poll: error 9 iff streams were dropped and that was not reported yet, otherwise clock, and a report iff the tick has changed |
| `Timer.CTimer.Run` | src/timer.cpp:68-175 | whatever the other threads do between its looks, the thread makes exactly the steps of `Step`, until it is done |
| `Protocol.TestsInTurn` | src/ias_client.cpp:289-332 | in a followed protocol tests run one at a time in the planned order |
| `Protocol.AllFinished` | src/callback.cpp:98-109 | all enabled tests have finished iff only the completed callback can follow |
| `Protocol.CompletedLast` | src/callback.cpp:98-109 | completed comes last, directly after the last finish, with the end of the measurement noted before |
| `Protocol.ErrorLast` | src/timer.cpp:70-96 | nothing follows an error callback |
| `Protocol.ReportsIncrease` | src/timer.cpp:152-157 | ticks of reports of one test increase strictly, between 1 and twice the duration |
| `Client.CCallback.Callback` | src/callback.cpp:44-110 | one callback hands over exactly `Emitted`: the end noted before, completion after the finish that makes the tests complete |
| `Client.CCallback.AllPerformedIff` | src/callback.cpp:98 | the four flag comparisons hold iff the performed tests are the enabled ones |
| `Client.Client.TakeTestCase` | src/ias_client.cpp:289-356 | one guarded test case starts, and tells the platform, exactly what the step of the system's sequencer does in that state |
| `Client.Client.MeasurementStart` | src/ias_client.cpp:282-336 | whatever the other threads do between its looks at the globals, it makes exactly the decisions of the system's sequencer and stops the client as it does |
| `Client.SequencerMatches` | src/ias_client.cpp:289-332 | in every run that is over, the states of its five decisions are an input of `MeasurementStart`, and its tests are those the run started |
| `Client.NoneAfterFailure` | src/ias_client.cpp:300-332 | in every run, once the client was stopped or a test has flagged an error, no further test is started |
| `Client.CMeasurement.constructor` | src/measurement.cpp:27-62 | workers per test, and a start-up delay of 0, 1, 3 and 3 seconds |
| `Client.CMeasurement.StartMeasurement` | src/measurement.cpp:76-185 | 60 seconds for the IP test, the configured duration for a download, two seconds more for an upload, the ping test leaving the duration alone; durations and workers are those of the system's creation step |
| `Invariants.BarrierSound` | src/timer.cpp:98-113 | if as many entries are 1 as there are workers, all workers of this test are ready |
| `Invariants.WorkerEntry` | src/tests/download.cpp:95-97 | a worker touches only its own entry, and never turns a 1 back |
| `Invariants.WorkerFlags` | src/tests/download.cpp:71-77 | workers only worsen the flags, and no error flag stands without `hasError` |
| `Invariants.BarriersStep` | src/ias_client.cpp:346-348 | the barrier invariant is kept by every step of every thread |
| `Clocks.NoStaleDuration` | src/timer.cpp:145-148 | past the barrier the duration is that of the current test |
| `Clocks.InForceStep` | src/tests/ping.cpp:104 | the duration of the test is in force before the worker that needs it is under way |
| `Clocks.TimedStep` | src/timer.cpp:113-143 | start times are taken before the timer's time stamp, and elapsed time never exceeds the clock |
| `Clocks.ClockFits` | src/timer.cpp:140-150 | one poll never lowers the tick, keeps it below twice the duration, and stops only at the end |
| `Clocks.TicksTimer` | src/timer.cpp:127-173 | the timer keeps tick bound, tick position and the reason of every stop |
| `Histories.BaseStep` | src/timer.cpp:68-175 | all invariants together are kept by every step |
| `Histories.TickRises` | src/timer.cpp:145-150 | the tick never falls while a test runs |
| `Stability.SettledMore` | src/tests/download.cpp:201-209 | a chunk of the current tick disturbs no step that lies behind it |
| `Stability.StableStep` | src/callback.cpp:342-485 | every interleaving keeps what reports said about passed steps equal to what the streams hold |
| `Stability.DownloadPrefixStable` | src/callback.cpp:325-467 | in every run, an earlier and a later report or result agree on all byte counters of every common step and stream |
| `Times.RelativeTimes` | src/callback.cpp:356-471 | in every run, no reported time is negative, and entries of a stream advance by half a second plus the time between readings |
| `Conformance.RunsAreAccepted` | src/callback.cpp:44-110 | the callbacks of every run follow the protocol |
| `Conformance.TimerTalks` | src/timer.cpp:70-138 | every info and error callback of the timer is allowed where it is made |
| `Conformance.Lengths` | src/callback.cpp:325-340 | a report under way has the steps of its tick, a finish all of them |
| `Witnesses.ElectedAlways` | src/tests/upload.cpp:227-236 | in every run, all upload streams that know a first key know the same |
| `Course.GrownBetween` | src/tests/download.cpp:174-210 | between two moments of one test, streams only append, the elected key stays, and new chunks meet at least the earlier tick |
| `Witnesses.EntriesWitnessed` | src/callback.cpp:342-427 | in every run, each stream of a report was read from states of that run, row after row and all at one tick, for a report its own |
| `Guarantees.Completion` | src/callback.cpp:98-109 | in every run: finished tests, started tests and plan are prefixes of each other; completed and measurement end occur iff all enabled tests have finished |
| `Guarantees.LastCallback` | src/timer.cpp:70-173 | in every run, completion and an error are each the very last callback, and the end is noted directly before the last finish |
| `Guarantees.ReportLengths` | src/callback.cpp:534 | in every run, reports have as many steps as half seconds passed and never none; a finish has all |
| `Guarantees.ReportEntries` | src/callback.cpp:342-473 | in every run, the list of entries of a report shows every step and every stream of the test once, in that order |
| `Guarantees.TicksIncrease` | src/timer.cpp:152-157 | in every run, reports of one test carry strictly increasing ticks |
| `Guarantees.SharedState` | src/timer.cpp:98-150 | in every run: tick bound, number of workers, and past the barrier the right duration and all workers ready |
| `Guarantees.EntryStays` | src/tests/download.cpp:178-185 | in every run, a barrier entry that is 1 at some moment of a test is 1 at every later moment of it |
| `Guarantees.StoppingPollIsSilent` | src/timer.cpp:145-157 | in every run, the poll that stops a test makes no report |
| `Guarantees.DownloadDomainKept` | src/tests/download.cpp:167-203 | in every run, a download worker only ever writes pre-filled buckets: its keys stay 0..2D and the tick is one of them |
| `Guarantees.DataBeforeStart` | src/tests/download.cpp:178-209 | in every run, a download worker that has received anything has received data before the start |
| `Guarantees.DownloadConserved` | src/tests/download.cpp:198-209 | in every run, every download entry and the buckets still to come account for what its stream had received iff no chunk met both the start and an error flag, and either there is none or some chunk landed in bucket 0; the exact difference is the bits of the former chunks and, without a chunk in bucket 0, of all data from before the start |
| `Guarantees.UploadConserved` | src/tests/upload.cpp:218-262 | in every run, no upload entry of a stream with a moving server clock claims more than the server had acknowledged; once the stream has met the elected key, entry and buckets to come are exactly that |
| `Sums.ReportSums` | src/callback.cpp:429-465 | in every run, the byte counts of a download report add up from row to row, and its distinct bytes sum to them |
| `Sums.FinishSums` | src/callback.cpp:429-465 | in every run, two rows of a final download result add up iff the step lies behind the tick or nothing that reached a bucket came in between; so they sum up to one row after the tick |
| `Sums.UploadRows` | src/callback.cpp:429-465 | in every run, two consecutive rows of an upload report or result add up, for a stream with a moving server clock, iff no first key was elected by the second reading or no record with data that the first one has counted nothing of lies under a key the earlier step counts then |
| `Sums.UploadReports` | src/callback.cpp:429-467 | in every run, a report and a later report or the final result of an upload agree on all counters of a stream with a moving server clock at a common step iff no such record lies under its keys and the slow start was not found in between |
| `Sums.AggregatesAddUp` | src/callback.cpp:475-498 | in every run, `bytes_aggregate*8` is the sum of the aggregate buckets at every step of every report |
| `Sums.UploadLinesUp` | src/callback.cpp:429-462 | in every run, if every upload stream of a row had, when it was read, met the elected key and kept to the half-second grid, position p of the aggregate is what all streams hold under F+5(p-1), for one elected key F |
| `LateRecords.UploadBytesIff` | src/callback.cpp:429-467 | two readings of a stream with a moving server clock, whether or not it has met the elected key: the bytes of its first steps agree iff no first key was elected by the later one or no record with data that the earlier one has counted nothing of lies under one of the keys counted then |
| `LateRecords.SlowStartIff` | src/tests/upload.cpp:257-260 | the slow start of the two readings agrees iff the stream had met the elected key, still has not, or has no data below it |
| `LateRecords.UploadEntriesIff` | src/callback.cpp:429-467 | all counters of an upload entry are shown unchanged later on iff both hold |
| `Aftermath.ErrorAfterCompletion` | src/callback.cpp:487-491 | in every completed run, an error is flagged iff a step of the last result met no stream with data, or the client was aborted or a worker threw since that result was begun; in an undisturbed run the latter does not occur |
| `Lifetimes.DeletedInCallback` | src/measurement.cpp:144-160 | in every run, at any moment inside a callback, the streams may have been deleted iff all workers have ended and an error is flagged or the client was stopped |
| `Lifetimes.RowsReadAlive` | src/measurement.cpp:144-209 | in every run, a stream that a report or result read had not been deleted, unless all had ended and an error or stop had come in; so it had not if the client still runs without an error at any later moment |
| `Lifetimes.TestLeft` | src/measurement.cpp:144-209 | in every run, a test is left only when its workers have ended, its timer is done, and its result is there, an error flagged or the client stopped |
| `Elapsed.EntryTimes` | src/callback.cpp:387-471 | in every run, the entry (step-1)*streams+k of a report carries its step and stream; its elapsed time, with the half seconds of the later steps, is exactly the time from the registration of worker k to the moment the clock was read for the row, and its measurement time that from the start of the client |
| `Elapsed.StreamsDiffer` | src/callback.cpp:387-471 | in every run, the elapsed times of two streams of a row differ by exactly the time between their registrations |
| `Elapsed.StartsAfterDelay` | src/timer.cpp:113-124 | in every run, the clock of a test has started at least its delay of 0, 1 or 3 seconds after a moment at which the timer found all its workers ready |
| `Elapsed.WaitsForDelay` | src/timer.cpp:118 | in every run, a timer that waits does so until exactly that delay after that moment |
| `Causes.ErrorMeans` | src/timer.cpp:70-138 | in every run, error 7 means that a worker met an unreachable peer, 4 that a server refused one, 8 that the IP report lacked its TLS parameters, 9 that a row met no stream with data, 1 that no test is enabled, and there are no others |
| `Causes.CheckReports` | src/timer.cpp:70-138 | in every run, a check that meets its flag, not reported yet, hands over exactly the error of that flag and stops the test |
| `Causes.IpStopsFor` | src/callback.cpp:198-218 | in every run, an IP test that stopped without an error has its answer, or a minute has passed |
| `Causes.AnswerStops` | src/callback.cpp:198-218 | in every run, a callback of an IP test that has its answer stops the test |
| `Causes.StopsFor` | src/ias_client.cpp:282-336 | in every run, the client runs unless no test was enabled, it was stopped or aborted, a worker threw, or all tests are over; an abort or a throwing worker flags an error |
| `Workers.LogsAlways` | src/tests/download.cpp:174-210 | in every run, a worker has accounted exactly its receives in the running test, each chunk and record with the clock, error flag, tick and elected key it met |
| `Workers.LivesUntilSilent` | src/tests/download.cpp:187-191 | in every run, while a download or upload goes on without an error, a stream that has received something has left its loop iff its last receive brought nothing or failed |
| `Workers.NothingBegins` | src/tests/download.cpp:174 | in every run, once the workers of a test are told to leave, none begins another receive: one that is not in a receive accounts nothing more, one that is at most that one |
| `Workers.FailureIs` | src/tests/download.cpp:71-163 | where a worker of which test can fail in which way, and which flags that sets; nobody is told of a ping socket that cannot be opened |
| `Workers.EntryIs` | src/tests/download.cpp:95-97 | in every run, a registered worker has a barrier entry, which is 1 iff it has received something |
| `Possibility.CanComplete` | src/ias_client.cpp:289-336 | every configuration with an enabled test has an undisturbed run that performs all of them and completes |
| `Scenarios.TwoReports` | src/timer.cpp:140-157 | every download of at least two seconds has a run with two reports, of one and of two steps |
| `Scenarios.BeforeStartIsLost` | src/tests/download.cpp:199-209 | every configuration with a download has a run whose final result shows nothing of data received before the start |
| `Scenarios.FinishDoesNotAddUp` | src/callback.cpp:342-465 | a run in which a chunk between two rows of the final result breaks their sum |
| `Scenarios.CompletesWithError` | src/callback.cpp:487-491 | an undisturbed run that completes with an error flagged |
| `Scenarios.ErrorHidesData` | src/tests/download.cpp:198-203 | a run in which a stream received data before the start and in bucket 0, and an entry misses what it received with an error flagged |
| `Scenarios.UploadDoesNotAddUp` | src/callback.cpp:429-465 | a run in which the first record between two rows of an upload result breaks their sum |
| `Scenarios.ReadsDeletedStream` | src/measurement.cpp:144-160 | an undisturbed run in which the final result is about to read a stream that has been deleted |
| `Scenarios.UploadReportsDisagree` | src/callback.cpp:429-465 | a run in which an upload report and the final result disagree about a step |

## Left out

- Sockets, DNS, TLS, the HTTP request and the splitting of responses: workers receive arbitrary results
  and parsed records, and fail where the code can fail.
- `CTool::calculateResults`, `CBasisThread`, `CConnection`, `CConfigManager`: ias-libtool is not part of
  this model, so nothing is said about averages, medians, `duration_ns` or the progress of download and
  upload. A thread's `run` is executed once and `waitForEnd` waits for its end.
- JSON building, logging, signal handlers, the command line, the Android and iOS connectors, and
  `mapping_ias.json`. The `started` callback is always recorded; the code sends it on mobile platforms only.
- The evaluation of the IP report (`src/tests/ip.cpp`): the IP worker syncs, then ends with a result, an
  error, or missing TLS parameters.
- The pairing of single round-trip times with timestamps (`src/callback.cpp:272-281`), which indexes from
  1 while the ping loop stores from 2.
- Termination of every run: a ping socket that cannot be opened leaves the barrier unmet
  (`src/tests/ping.cpp:110-115`). `Possibility.CanComplete` only says that some run completes.
- Integer widths: counters are unbounded, so wrap-around after 2^64 bits, and of `TIMER_DURATION` after
  2147 seconds, does not occur. Where unsigned subtraction matters it is proved not to wrap
  (`Times.RelativeTimes`, `UploadSender.Run`).
- Upload records with exactly three fields, whose fourth field the code reads beyond the list, and the
  wrap-around of the six-digit server key.
- `m_fStop` outside the upload sender, failures of `createThread`, and effects of unsynchronised memory
  access finer than the steps listed above.
- The upload sender is not a thread of the interleaved system: it shares only `RUNNING` and `hasError`,
  and its loop is verified for every sequence of their values.
- `Ping.Ping.Run`: its turns are two steps each in the interleaved system, which counts and times them but
  leaves the counters to the method.
- `LateRecords.UploadBytesIff`: about streams whose server keys increase and which meet neither short records
  nor an error flag; `Upload.HistoryLedger` covers the others.
- `Lifetimes.RowsReadAlive`: what a read of a deleted stream returns is not modelled beyond that it is
  undefined in the code.

# A verified model of logjam-tools

logjam collects performance data of web requests. This project models the hard
parts of its importer and tools in Dafny and proves what they promise:

- **Request tracker.** Backends add request uuids, frontends delete them, late
  backends are tolerated by parking frontend messages, and everything is
  forgotten after five minutes. `ZRing` is the insertion-ordered hash the
  tracker uses, `TrackerModel` the pure state machine, `Tracker` the server with
  its rings and counters updated in place, and `TrackerRuns`, `TrackerTheorems`,
  `TrackerLedger` and `TrackerMessages` prove what holds over every run.
- **Statistics pipeline.** Messages are spread over parsers, folded into
  counters (`Processor`, `Increments`), merged pairwise by adders (`Adder`,
  `Controller`), accumulated over ticks and written as `$inc` and `$max` upserts
  (`StatsUpdater`, with the keys of `KeyCodec`). `ProcessorModel` says what one
  message adds, `Merging` has the algebra, `Cells` and `Writes` say what reaches
  the database, `Agreement` and `NamespaceSums` relate counters that are kept
  independently, and `Pipeline` with `PipelineProofs` is the whole concurrent
  machine, whose steps `Importer` shows the methods to take. `PipelineProgress`
  (over `Paths` and `TaskCells`) shows that every run can be continued until
  everything is written. The main result, `PipelineProofs.ParallelIsSequential`,
  says that in every interleaving the database ends up with what one sequential
  processor would have written; `PipelineExact.SequentialExactly` says exactly when.
  `Messages` says in terms of the messages alone what is a request, in which
  namespaces, with which times, values, scores and buckets. `Meaning` and
  `Distributions` (over `Readings`) prove that after every settled run each number
  in the database is the count, the sum or the maximum that these words describe.
- **Stream infos.** `StreamInfo` is the reference counting protocol as small
  interleaved steps, `StreamInfoProofs` proves that no interleaving frees an
  info that is held, frees one twice, or touches one after it was freed, and
  `StreamInfoLeak` has a run in which a reference is lost.
- **Queue counters** (`QueueCounters`), **device gaps** (`DeviceTracker`), the
  **live stream windows** (`LiveStream`), the **dump file** (`DumpFile`) and its
  **replay** (`DumpReplay`), and the **meta frame** in C and Go (`MetaInfo`, over
  `Bytes`).

Doubles are modelled as reals, and integers are unbounded except where the
source relies on wrap-around (the tracker's threshold and the device sequence
numbers are 64-bit). `dafny verify dfyconfig.toml` checks everything.

## Where the code does not do what one expects

- The tracker's threshold is an unsigned subtraction. With a clock below
  300000 ms it wraps, and a clean forgets everything. Retention holds if and only
  if the clock starts at 300000 ms or later (`TrackerTheorems.RetentionNeedsClock`).
- Only metrics with a positive sum are written, and `other_time` can be negative.
  Writing in batches equals writing at once if and only if no metric of a document
  mixes signs (`Writes.SplitWritesAgreeExactly`), which two requests do when the
  parts of one add up to more than its total time (`Writes.SignsGetMixed`). So the
  importer as a whole writes what one sequential processor writes if and only if no
  metric mixes signs (`PipelineExact.SequentialExactly`).
- A page that begins with a colon is counted among the modules. Pages, modules
  and `all_pages` have the same request counts if and only if there is no such
  request (`NamespaceSums.CountsAgreeExactly`), as there is with an action like
  `:x#y` (`NamespaceSums.ColonPagesOccur`).
- Exceptions and events ignore a failed send: the reference in the message is
  lost (`StreamInfoLeak.ReferencesGetLost`), so that its stream info is never freed
  (`StreamInfoProofs.CountsAreExact`), and `queued_inserts` is incremented all the
  same (`QueueCounters.UnnoticedFailureStays`). The counter is right if and only if
  no failure went unnoticed (`QueueCounters.CountsNoFailures`).
- `zmsg_savex` reports failure for every message with an empty frame, but such a
  message can be loaded back if only its last frame is empty
  (`DumpFile.SavedCanBeLoaded`).
- The mean of a live stream ring adds up the whole buffer. It is the mean of the
  ring's values if and only if the unused slots add up to zero (`LiveStream.Mean`);
  the dispatcher only ever asks in such states.
- A sequence number at least 2^63 behind counts as a loss, unless it is 2^64 - 1
  behind (`DeviceTracker.BackwardsIsFree`).
- A device with a known publisher that is silent for seven checks is dropped and
  starts over: messages lost before its next one are not counted
  (`DeviceTracker.EightLostUnnoticed`). Received plus lost is the range of all its
  sequence numbers if and only if nothing out of sequence arrives after a drop
  (`DeviceTracker.RangeIsAccountedFor`).
- `logjam-replay` counts five words per message. It forwards a whole dump and then
  stops if and only if messages have four frames on average
  (`DumpReplay.ReplaysExactly`). With more it never stops. With fewer it may take the
  middle of the dump for its end and stop or start over there: of six messages with
  three frames it forwards five (`DumpReplay.LosesTheSixth`).
- `logjam-dump` ignores the return code of `zmsg_savex`. A dump loads back as what was
  saved if and only if no message is without frames or has an empty frame before its
  last (`DumpFile.LoadsExactly`).
- The module of a page is assembled in a buffer of the page's length. It fits if and
  only if the page does not end with its first colon (`ProcessorModel.ModuleFits`),
  as `a#b:` does (`ProcessorModel.ModuleMayNotFit`).
- The anomaly score exceeds 1 if and only if the mean or the forecast is negative and
  their sum is positive (`LiveStream.AnomalyIsARatio`).

## Model

| member | source | states |
|---|---|---|
| ZRing.Ring.Insert | src/zring.c:44-66 | refuses a known key and otherwise appends the pair to the insertion-ordered contents; hash handles and list nodes stay in bijection |
| ZRing.Ring.Lookup | src/zring.c:69-83 | finds exactly the value of the key in the contents, or nothing |
| ZRing.Ring.Shift | src/zring.c:85-95 | removes and returns the oldest pair |
| ZRing.Ring.Delete | src/zring.c:98-120 | drops exactly the pair of the key, from hash and list |
| ZRing.Ring.First | src/zring.c:129-136 | returns the oldest value |
| ZRing.Ring.Size | src/zring.c:122-127 | the number of pairs |
| TrackerModel.StalePrefix | src/importer-tracker.c:180-194 | the head-only loop stops at the first stamp that is not older than the threshold, having passed only older ones |
| TrackerRuns.CleanIsFilter | src/importer-tracker.c:180-194 | on a ring sorted by age the head-only expiry loop equals filtering out every older entry |
| TrackerRuns.StepKeepsInv | src/importer-tracker.c:244-332 | every operation keeps the key sets of the three rings disjoint and uuids and failures sorted by age |
| TrackerRuns.RunKeepsInv | src/importer-tracker.c:244-332 | the same over every run with a non-decreasing clock |
| TrackerTheorems.RunKeeps | src/importer-tracker.c:218-314 | a uuid stays in uuids or successes until the clock passes its stamp plus the threshold, and its matches are its moves out of uuids |
| TrackerTheorems.AtMostOnce | src/importer-tracker.c:244-314 | after an accepted add, in every run before expiry a second add is refused and at most one delete matches |
| TrackerTheorems.RetentionNeedsClock | src/importer-tracker.c:120-130 | retention holds for all runs if and only if the clock starts at the threshold or later |
| TrackerTheorems.WrappedThresholdForgets | src/importer-tracker.c:125-130 | for every earlier start a tick forgets a uuid just added, and a second add is accepted |
| TrackerTheorems.SuccessesAreRecent | src/importer-tracker.c:218-231 | after every clean each success was matched at most the threshold ago and added at most twice that ago |
| TrackerTheorems.SuccessesNeedNotBeSorted | src/importer-tracker.c:292-297 | a run that leaves the successes unsorted by their stamps |
| TrackerLedger.RequestsAreConserved | src/importer-tracker.c:244-332 | over every run added = deleted + expired + pending, and deletes = deleted + duplicates + failed + forwarded + parked |
| TrackerLedger.MessagesAreConserved | src/importer-tracker.c:198-308 | every parked message is forwarded once, discarded once or still waiting |
| TrackerLedger.OrderDoesNotMatter | src/importer-tracker.c:252-308 | delete, add, redelivery ends like add, delete, whatever else happens in between: reply 1 in both if and only if the redelivery comes in time, and the same entry in the same ring in any case |
| TrackerLedger.ReportsAddUp | src/importer-tracker.c:243-332 | from any state, the counters that a run reports and ends with grow by exactly the accepted adds, the matches, the duplicates and the discarded messages |
| TrackerMessages.WaitingAreStripped | src/importer-tracker.c:300-308 | in every run a message parked under a uuid is that of a delete of the uuid, with the same frames and payload: unchanged if it has not four frames, without device and sequence number if it has |
| TrackerMessages.ForwardedAreStripped | src/importer-tracker.c:252-262 | the same for every message that is forwarded late, whose delete came earlier in the run |
| TrackerMessages.LateMessagesLeaveNoGap | src/logjam-util.c:161-174 | a four-frame message forwarded late leaves every device table as it is and counts as no gap |
| Tracker.Server.SetTime | src/importer-tracker.c:124-130 | refines the clock step, with the 64-bit threshold |
| Tracker.Server.CleanStamps | src/importer-tracker.c:218-231 | shifts exactly the stale prefix off a ring |
| Tracker.Server.CleanParked | src/importer-tracker.c:196-214 | shifts exactly the stale failures and destroys their messages |
| Tracker.Server.CleanExpired | src/importer-tracker.c:233-241 | refines the clean of all three rings with its counters |
| Tracker.Server.AddUuid | src/importer-tracker.c:243-273 | refines the add step, with no insert refused |
| Tracker.Server.DeleteUuid | src/importer-tracker.c:276-314 | refines the delete step; the reply is 1 exactly for a match |
| Tracker.Server.OnTick | src/importer-tracker.c:316-332 | refines the tick: cleans, reports the counters and resets them |
| KeyCodec.DecodeMinuteKey | src/importer-statsupdater.c:130-136 | inverts the printer of minute keys |
| KeyCodec.DecodeQuantKey | src/importer-statsupdater.c:208-220 | inverts the printer of quant keys |
| KeyCodec.DecodeHistogramKey | src/importer-statsupdater.c:273-289 | inverts the printer of histogram keys, for hyphen-free resources |
| KeyCodec.MinuteKeyInjective | src/importer-processor.c:474-488 | different minutes or namespaces have different keys |
| KeyCodec.QuantKeyInjective | src/importer-processor.c:492-505 | different kinds, quants or namespaces have different keys |
| KeyCodec.HistogramKeyInjective | src/importer-processor.c:617-643 | different minutes, hyphen-free resources or namespaces have different keys |
| Increments.AddIncsLaws | src/importer-increments.c:307-354 | adding increments is commutative and associative |
| Increments.Counters.Clone | src/importer-increments.c:49-61 | a fresh object with the same counters |
| Increments.Counters.FillMetrics | src/importer-increments.c:63-78 | each named field fills its metric with value, square and maximum; the others stay empty |
| Increments.Counters.Add | src/importer-increments.c:307-354 | counts, sums and others are added and maxima joined, in place, leaving the source alone |
| ProcessorModel.NamespacesDiffer | src/importer-processor.c:90-149 | page, module and all_pages are three different namespaces |
| ProcessorModel.ModuleFits | src/importer-processor.c:118-139 | the module of a page is no longer than the page if and only if the page does not end with its first colon |
| ProcessorModel.ModuleMayNotFit | src/importer-processor.c:118-139 | a page whose module is longer |
| ProcessorModel.BucketBounds | src/importer-processor.c:507-552 | the bucket of a value is the first whose limit is not below it, or the last |
| ProcessorModel.ApplyMerges | src/importer-adder.c:143-170 | adding a message to a processor equals merging in a processor that saw only that message |
| ProcessorModel.MergeTablesLaws | src/importer-adder.c:143-170 | merging tables is commutative and associative and has the empty table as unit |
| ProcessorModel.FoldConcat | src/importer-adder.c:143-170 | the table of two batches together is the merge of their tables |
| ProcessorModel.FoldPermutes | src/importer-parser.c:249-272 | the order of messages does not matter to the table |
| Processor.FindBucketIndex | src/importer-processor.c:542-552 | the search loop returns the bucket of the value |
| Processor.State.AddTotals | src/importer-processor.c:395-407 | adds the increments to the totals of a namespace, copying them for a new one |
| Processor.State.AddMinutes | src/importer-processor.c:474-488 | the same for the minutes, under the printed key |
| Processor.State.AddQuants | src/importer-processor.c:554-592 | counts one quant per positive resource of each kind, under the printed keys |
| Processor.State.AddHistogram | src/importer-processor.c:617-643 | counts the value's bucket in the histogram of minute, resource and namespace |
| Processor.State.AddAgents | src/importer-processor.c:427-472 | adds the counts of a user agent |
| Processor.State.AddRequest | src/importer-processor.c:789-879 | changes the processor by exactly the effect of a request, on all six tables |
| Processor.State.AddFrontendData | src/importer-processor.c:1267-1346 | the same for page data, with the reason for dropping it |
| Processor.State.AddAjaxData | src/importer-processor.c:1364-1445 | the same for ajax data |
| Processor.State.AddJsException | src/importer-processor.c:917-964 | the same for a javascript exception |
| Processor.State.Process | src/importer-parser.c:249-272 | the dispatch over the four kinds of messages refines the effect of the message |
| Singles.SpacesDistinct | src/importer-processor.c:90-149 | for every message the namespaces it counts in are all different |
| Singles.SingleTotals | src/importer-processor.c:821-827 | the counters of one message are stored once under each of its namespaces and nowhere else |
| Cells.CellMerges | src/importer-statsupdater.c:53-120 | what is written for a merged table is, cell by cell, what is written for both, unless a metric mixes signs |
| Cells.FoldSound | src/importer-increments.c:95-176 | no table made from messages has a negative count |
| Writes.WritesCompose | src/importer-statsupdater.c:165-199 | the batches of any partition of the messages write together what one batch would |
| Writes.SplitWritesAgreeExactly | src/importer-statsupdater.c:77-89 | this holds for every split if and only if no metric of a document mixes signs |
| Writes.OtherTimeMixes | src/importer-processor.c:318-331 | requests mix signs whenever the parts of one add up to more than its total time and those of another to less |
| Writes.SignsGetMixed | src/importer-processor.c:318-331 | two such requests |
| Writes.MixedSignsDiffer | src/importer-processor.c:318-331 | for every mix of signs a split that writes something else |
| Agreement.TotalsAreMinutes | src/importer-processor.c:395-488 | in every field the totals of a namespace are its minutes put together |
| Agreement.HistogramsCountRequests | src/importer-processor.c:617-643 | the buckets of a histogram add up to the request count of its minute |
| Agreement.ScoresAddUp | src/importer-increments.c:95-176 | satisfied + tolerating + frustrated is the backend, page, ajax or frontend count, for the four apdex scores |
| NamespaceSums.CountsAcrossNamespaces | src/importer-processor.c:821-827 | requests summed over pages or modules differ from those of all_pages by the colon pages |
| NamespaceSums.CountsAgreeExactly | src/importer-processor.c:118-149 | all three agree if and only if no counted request's page begins with a colon |
| NamespaceSums.ColonPageCounts | src/importer-processor.c:118-149 | every request whose page begins with a colon is counted among the modules |
| NamespaceSums.ColonPagesOccur | src/importer-processor.c:90-116 | such a request |
| Readings.PageIsRead | src/importer-processor.c:90-116 | the page of a message is its action, else its logjam action, else unknown, completed with a method where it lacks one |
| Readings.SpacesAreRead | src/importer-processor.c:118-149 | a message counts in all_pages, in its module and in its page, a javascript exception in the page only if that has a known method |
| Readings.TagsAreRead | src/importer-increments.c:95-176 | every message has exactly the scores its times deserve (100/500/2000 ms for apdex, 500/2000/8000 ms for the others) and its own tags, once each |
| Readings.ValuesAreRead | src/importer-processor.c:165-351 | the metrics of a request record the values of its resources, with derived times and allocated memory |
| Readings.BucketIsRead | src/importer-processor.c:507-552 | for every value and both units, the bucket is the one of 1, 3, 10, 30, … whose two limits enclose it |
| Readings.QuantIsRead | src/importer-processor.c:554-592 | which kind, unit and upper limit the quant of a resource has, and which resources have none |
| Adder.MergeCounts | src/importer-adder.c:33-79 | the draining loop leaves the pointwise sum of quants or histograms |
| Adder.MergeIncrements | src/importer-adder.c:99-117 | the draining loop leaves the pointwise combination of increments |
| Adder.MergeAgents | src/importer-adder.c:119-141 | the draining loop leaves the pointwise sum of agents |
| Adder.MergeProcessors | src/importer-adder.c:143-170 | the merge of both tables, for any order of draining |
| Controller.RoundsIsLog | src/importer-controller.c:172-209 | the number of rounds is the logarithm of the number of tables, rounded up |
| Controller.MergeProcessors | src/importer-controller.c:172-209 | terminates with one table, the combination of all, after l - 1 requests in that many rounds, for any order of replies |
| PipelineProofs.StepKeepsInv | src/importer-controller.c:330-406 | every step of parsers, controller, adders and updaters keeps each input in exactly one place and each table the fold of its inputs |
| PipelineProofs.RunKeepsInv | src/importer-parser.c:357-378 | the same over every run: parsed = forwarded + collected + still in parsers |
| PipelineProofs.DatabaseIsFold | src/importer-controller.c:211-309 | in every reachable state the database with the queued updates holds what one processor writes for the forwarded inputs |
| PipelineProofs.ParallelIsSequential | src/importer-controller.c:330-406 | once settled, every cell of the database holds what one sequential processor would have written for all parsed messages; only a metric's cell needs values of one sign |
| PipelineProgress.EveryRunCanSettle | src/importer-controller.c:330-406 | every run with a parser can be continued, without further messages, until everything is forwarded and written |
| PipelineProgress.FinishRounds | src/importer-controller.c:172-209 | the rounds of a merge come to an end from wherever they are |
| PipelineExact.SequentialExactly | src/importer-statsupdater.c:77-89 | all settled runs over some messages have written what one sequential processor writes if and only if no metric mixes signs |
| Meaning.SettledCell | src/importer-controller.c:330-406 | after every settled run a cell holds what the parsed messages, each on its own, would write to it, joined |
| Meaning.CountersCount | src/importer-statsupdater.c:53-76 | request, page, ajax and frontend counts, scores and tags of totals and minutes are the numbers of messages that count for them, and absent if there are none |
| Meaning.FrontendIsPagesAndAjax | src/importer-statsupdater.c:53-76 | the frontend count is the page count and the ajax count together |
| Meaning.MetricsSum | src/importer-statsupdater.c:77-89 | a metric is the sum of the values of the requests of a document and its square that of their squares, if they do not mix signs and one of them is positive, and absent otherwise |
| Meaning.MaximaAreLargest | src/importer-statsupdater.c:77-89 | the maximum of a metric is the largest of these values |
| Distributions.QuantsCount | src/importer-processor.c:554-592 | a quant is the number of requests of a page, or of all, whose resource has a positive value between its two limits |
| Distributions.HeatmapsCount | src/importer-processor.c:617-643 | a heatmap bucket is the number of requests of a namespace and minute whose time lies between its two limits |
| Distributions.AgentsCount | src/importer-processor.c:427-472 | the counters of a user agent are the numbers of its requests, frontend messages and dropped ones, by reason |
| Distributions.ModulesOfRun | src/importer-processor.c:118-149 | the modules of a processor are those of the messages that got as far as their page, dropped outliers included |
| Distributions.RequestsOfRun | src/importer-parser.c:249-272 | the request count of a processor is the number of all its messages |
| TaskCells.WriteExists | src/importer-statsupdater.c:492-501 | every task with decodable keys can be written to every database, in finitely many cells |
| StatsUpdater.IncrementsToDocument | src/importer-statsupdater.c:53-120 | the document increments exactly the non-zero counts and positive metrics and maximizes the maxima |
| StatsUpdater.UpsertCell | src/importer-statsupdater.c:165-199 | an upsert joins the document into the addressed cells and leaves all others |
| StatsUpdater.UpdateTotals | src/importer-statsupdater.c:165-199 | the database is joined, cell by cell, with what the totals stand for |
| StatsUpdater.UpdateMinutes | src/importer-statsupdater.c:122-163 | the same for the minutes, through their decoded keys |
| StatsUpdater.UpdateQuants | src/importer-statsupdater.c:201-264 | the same for the quants |
| StatsUpdater.UpdateHistograms | src/importer-statsupdater.c:266-337 | the same for the histograms, three of which share a document |
| StatsUpdater.UpdateAgents | src/importer-statsupdater.c:339-407 | the same for the agents |
| StatsUpdater.FoldKeyed | src/importer-processor.c:474-505 | every key a processor ever stores is one its decoder is for |
| Importer.RunIsReady | src/importer-controller.c:330-406 | in every reachable state each table has the shape the adders rely on, and each queued task is one whose keys its decoder is for |
| Importer.ParseMessage | src/importer-parser.c:249-272 | the processor's methods take the parse step |
| Importer.HandleAddition | src/importer-adder.c:172-183 | the adder's loops take the step of a merge request |
| Importer.ForwardUpdates | src/importer-controller.c:211-309 | the loop sends the five tasks of every database, in some order of the databases |
| Importer.FinishFifthTick | src/importer-controller.c:400-406 | forwarding is the last step of every fifth tick |
| Importer.WriteTask | src/importer-statsupdater.c:589-618 | the switch over the task type, with the five update loops, takes the update step |
| StreamInfoProofs.StepKeepsPlaced | src/logjam-streaminfo.c:26-47 | every step leaves caches, registers, lock and processors such that each uncounted pointer is covered by a holder |
| StreamInfoProofs.StepIsSafe | src/logjam-streaminfo.c:226-259 | every step keeps count = holders + lost references and touches no freed memory |
| StreamInfoProofs.StepFrees | src/logjam-streaminfo.c:226-259 | an info becomes freed only by a free step, never for the second time |
| StreamInfoProofs.RunKeepsInv | src/logjam-streaminfo.c:338-381 | both over every run, in which an info is freed at most once |
| StreamInfoProofs.CountsAreExact | src/logjam-streaminfo.c:226-259 | after every interleaving: no use after free, exact counts, held infos alive, and an unheld info freed once or being freed by one thread if and only if no reference was lost |
| StreamInfoLeak.ReferencesGetLost | src/importer-processor.c:955-964 | a run that ends in an ignored failure and leaves the count one above the holders |
| QueueCounters.CounterIsExact | src/importer-statsupdater.c:562-618 | in every interleaving the counter is the backlog plus counted failures minus sends not yet counted, at least minus the producers |
| QueueCounters.CountsNoFailures | src/importer-processor.c:962-978 | for any producers the counter is the backlog minus the sends not yet counted if and only if no failed send went unnoticed |
| QueueCounters.UnnoticedFailureStays | src/importer-processor.c:962-963 | a run with an ignored failure: counter 1, backlog 0 |
| QueueCounters.ControllerSample | src/importer-controller.c:420-435 | the controller, which checks its sends and samples between them, sees exactly the backlog |
| QueueCounters.BoundIsReached | src/importer-requestwriter.c:752-758 | a run for every group of producers that all get overtaken, so that the bound is sharp |
| DeviceTracker.Tracker.CalculateGap | src/device-tracker.c:72-119 | refines the table update of a message and returns its gap; device 0 changes nothing |
| DeviceTracker.Tracker.ReconnectStaleDevices | src/device-tracker.c:121-162 | takes one credit from each device and drops exactly the stale ones, each once |
| DeviceTracker.GapClassified | src/device-tracker.c:95-107 | for every pair of sequence numbers, which distances count as a loss and of how much |
| DeviceTracker.BackwardsIsFree | src/device-tracker.c:95-107 | a repeated or older number counts as no loss if and only if it is less than 2^63 behind, or 2^64 - 1 |
| DeviceTracker.DevicesAreIndependent | src/device-tracker.c:72-119 | what is recorded and reported for a device depends only on its own messages and the checks |
| DeviceTracker.LatestAddressIsKept | src/device-tracker.c:110-117 | as long as a device is listed, its address is the one it announced last |
| DeviceTracker.SilentDevice | src/device-tracker.c:121-139 | a silent device loses one credit per check and is dropped after the last if its publisher is known, and never otherwise |
| DeviceTracker.SeventhCheckDrops | src/logjam-util.h:36-38 | after its last message a device with a known publisher is dropped exactly at the seventh check |
| DeviceTracker.ReceivedPlusLost | src/device-tracker.c:72-119 | in every run with increasing numbers, whatever other devices send and however many checks pass, received + lost since a device's last registration is the range of its sequence numbers since then |
| DeviceTracker.RangeIsAccountedFor | src/device-tracker.c:72-162 | from a device's very first message on, received + reported losses is the range of its numbers if and only if no message out of sequence arrives after the device was dropped |
| DeviceTracker.NothingMissed | src/device-tracker.c:121-139 | that is so for devices heard at least every six checks and for devices whose publisher was never announced |
| DeviceTracker.DroppedDeviceStartsOver | src/device-tracker.c:83-93 | after seven silent checks the next message of a device reports no gap and resets its losses |
| DeviceTracker.EightLostUnnoticed | src/device-tracker.c:72-162 | messages 1 and 10 with seven checks in between: 2 received, none lost, in a range of 10 |
| LiveStream.Ring.Add | go/livestream-server/server.go:68-74 | appends to the history, overwriting the oldest slot |
| LiveStream.Ring.ForEach | go/livestream-server/server.go:77-89 | enumerates the last up to 60 values, oldest first |
| LiveStream.Mean | go/livestream-server/server.go:143-164 | is the mean of the live values if and only if the shortcut is not taken or the unused slots add up to zero |
| LiveStream.ShortcutIsRight | go/livestream-server/server.go:147-153 | the shortcut is right for full rings and for rings never reset |
| LiveStream.ResetRingMisleads | go/livestream-server/server.go:130-133 | a reset ring whose mean is wrong |
| LiveStream.AnomalyIsARatio | go/livestream-server/server.go:329-338 | for all means, when the score is at most 1, and that a minute is anomalous if and only if mean and forecast have a positive sum and are more than a factor 31/19 apart |
| LiveStream.NextSample | go/livestream-server/server.go:328-350 | after any history the windows hold the open block and the means of all closed blocks of 60 samples |
| LiveStream.AppInfo.OnPerf | go/livestream-server/server.go:317-350 | reports exactly after each complete block, the value determined by the history of samples alone |
| LiveStream.FirstReportIsQuiet | go/livestream-server/server.go:329-338 | reports follow each complete minute, and the first minute is never anomalous |
| LiveStream.ReportIsARatio | go/livestream-server/server.go:317-350 | every later minute is anomalous if and only if its mean and that of the means of the up to 60 minutes before it have a positive sum and are more than a factor 31/19 apart |
| LiveStream.AppInfo.OnError | go/livestream-server/server.go:351-352 | an error message joins the errors and changes no window |
| DumpFile.File.Save | src/logjam-util.c:599-620 | what is appended for every message, and success if and only if no frame is empty |
| DumpFile.File.Load | src/logjam-util.c:627-669 | refines the parser of a message, including cut-off files |
| DumpFile.LoadSaved | src/logjam-util.c:627-669 | loading gives back what was saved and leaves the file at the next message |
| DumpFile.SavedSize | src/logjam-util.c:599-620 | a saved message takes its full size if and only if no frame but the last is empty, and less otherwise |
| DumpFile.SavedCanBeLoaded | src/logjam-util.c:599-669 | a saved message can be loaded back, whatever follows it, if and only if it has a frame and no frame but the last is empty |
| DumpFile.LoadsExactly | src/logjam-dump.c:80-82 | loading a file again and again gives back exactly the messages saved to it if and only if each of them can be loaded back |
| DumpReplay.TallyIsOff | src/logjam-replay.c:66-68 | by how much the count of bytes differs from the file: a word for each frame more or less than four |
| DumpReplay.MeetsAtEnd | src/logjam-replay.c:84-91 | the count meets the file size after the last message and not before if and only if messages have four frames on average |
| DumpReplay.StopsAt | src/logjam-replay.c:84-91 | where the count first meets the file size the replay stops for good, and later messages are never forwarded |
| DumpReplay.NeverStops | src/logjam-replay.c:84-91 | if it never does, all messages are forwarded and the replay never stops |
| DumpReplay.ReplaysExactly | src/logjam-replay.c:50-93 | a replay forwards a whole dump and then stops if and only if messages have four frames on average |
| DumpReplay.LoopsExactly | src/logjam-replay.c:84-89 | an endless replay of such a dump forwards all of it and stands at its beginning again |
| DumpReplay.LosesTheSixth | src/logjam-replay.c:66-91 | six messages with three frames of which five are forwarded |
| DumpReplay.Replayer.Consume | src/logjam-replay.c:50-93 | on any file, forwards what loading gives and takes the step that the theorems above are about |
| MetaInfo.Htonll | src/logjam-util.c:76-86 | the fallback loop yields the value whose memory is in network order, on either host |
| MetaInfo.Ntohll | src/logjam-util.c:88-98 | the fallback loop reads a value in network order, on either host |
| MetaInfo.ConversionsAreOne | src/logjam-util.c:76-98 | both conversions are inverse to each other |
| MetaInfo.MsgMeta.Encode | src/logjam-util.h:76-82 | turns the memory of the struct into the wire format of its fields, with the tag |
| MetaInfo.MsgMeta.Decode | src/logjam-util.h:84-90 | turns the wire format in memory into its fields |
| MetaInfo.Extract | src/logjam-util.c:126-136 | accepts exactly the frames that are the wire format of tagged fields of version 1 |
| MetaInfo.PackInfo | go/util/util.go:48-57 | fills the buffer with the wire format |
| MetaInfo.UnpackInfo | go/util/util.go:59-72 | returns the fields whose wire format the data is, for every 24 bytes |
| MetaInfo.Transfer | src/logjam-util.h:76-90 | fields encoded on any C host come out the same on any C host and in Go, if and only if of version 1 for C |
| MetaInfo.TransferFromGo | go/util/util.go:48-57 | fields packed in Go come out the same on any C host |
| MetaInfo.FrameLayout | src/logjam-util.h:48-60 | the meaning of each of the 24 bytes, from the tag 0xca 0xbd on |

## Left out

- Sockets, polling loops, threads and shutdown: sockets are queues, threads are interleaved steps.
- MongoDB, BSON, statsd, Prometheus and websockets: the database is a map with `$inc` and `$max` upserts.
- JSON parsing: messages are records of the fields the importer reads. Page data arrives with its timing checks decided.
- Compression, logging, option parsing, GELF conversion, text encodings, backup and restore: easy or library members.
- Random sampling and throttling of stored requests: they do not touch the aggregates.
- Floating-point rounding, 32-bit BSON truncation and the fixed key buffers of the processor.
- Processor.State.AddTotals: tables hold counters as values and not as pointers to objects, so that aliasing of increments between tables is not modelled; `Increments.Counters` has the in-place update of one object.
- KeyCodec.DecodeMinuteKey: requires a key made by the printer, as the source never meets another; so do the other two decoders.
- PipelineProgress.EveryRunCanSettle: says that everything can be written, not that a scheduler will do it.
- PipelineProofs.ParallelIsSequential: sends succeed and no message is dropped by a socket.
- StreamInfoProofs.CountsAreExact: assumes sequentially consistent atomics and a processor owned by one thread at a time.
- DeviceTracker.Tracker.ReconnectStaleDevices: the socket calls and the lookup of local host names are not modelled, and the credit of a device without a publisher does not overflow.
- DumpFile.File.Load: frames can always be allocated, and reads and writes fail only at the end of the file or for empty items.
- DumpReplay.Replayer.Consume: the device and sequence numbers written into the meta frame and the once-a-second renewal of the credit are not modelled.
- LiveStream.AppInfo.OnPerf: sending to web sockets is not modelled.

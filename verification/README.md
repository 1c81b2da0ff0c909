# Verification of the stateful parts of TradingAgents-CN

This project models four parts of the repository in Dafny and proves properties of them for all inputs
and all runs. `dafny verify dfyconfig.toml` checks everything.

- **Task queue worker** (`TaskProtocol`, `TaskOutcomes`, `TaskWorker`). Any number of workers share the ready list, one
  hash per task and the sets `processing`, `completed` and `failed`. `TaskProtocol.State` is a transition
  system in which every Redis call is one atomic step that may succeed or raise without effect; the steps of
  all workers and of the clients interleave freely. `TaskWorker.Cluster` holds `process_task` and
  `worker_loop` as imperative code over the shared keys. Before each call the others do any number of steps,
  and every call is proved to be a step of the protocol, so all results about runs hold for the code. The
  fields `pc`, `saved`, `enqueued` and `log` of the class are bookkeeping of the model. `TaskOutcomes` tells the
  outcome of a run from the events alone: from what its analysis returned and which of its calls raised.
- **Run tracker of the CLI** (`Reports`, `MessageBuffer`, `AnalysisStream`, `AnalysisRun`,
  `ChunkSections`, `ChunkMessages`, `CurrentAgents`, `InvestmentPlans`). The class `MessageBuffer` has the fields of the original; `AnalysisRun`
  is the stream loop, block by block. `AnalysisStream.Effects` lists what one chunk does in the order of the code, and the
  results say what survives of it at the chunk boundaries.
- **Source rewriting passes** (`Text`, `LineEdits`, `LoggerLines`, `LoggerScan`, `LoggerPosition`,
  `LoggerText`, `DuplicateLoggers`, `ImportScan`, `LoggingImports`, `ImportText`, `LoggingPipeline`, `StockCodeValidator`, `DocHeaders`,
  `DocChecks`). Files are texts split into lines; pops and inserts are on indices as in the scripts. The
  scanner of `fix_logger_position` is proved on classified lines (`LoggerScan`), and the results are carried
  over to the text of a file, through joining and splitting again (`LoggerPosition`). `LoggerText` and `ImportText`
  say in terms of the text of each line what the scanners find and where the scripts insert.
- **Data repair migrations** (`QuoteCodes`, `FullSymbols`, `SymbolRepair`, `ProviderIds`). A collection is a
  map from ids to documents that the loops update under a unique index, with failures of single writes.

## Assumptions

- A Redis or MongoDB call that raises has had no effect. Cancellation and crashes in the middle of a task
  are excluded; the code does not recover from them.
- An id is enqueued again only after its previous run ended (ids are fresh UUIDs in the source).
- An error in one of the calls outside the try body of `process_task` (`app/worker.py:59-67`, and the
  handler's own calls `app/worker.py:175-181`) is allowed. The run then ends `Stranded`, and
  `TaskProtocol.StrandedByRaise` counts these runs exactly.
- Other writers of the queue do not run beside the workers: not `QueueService.dequeue_task`, not the requeueing
  of expired tasks, and not `QueueService.cancel_task` (`app/services/queue_service.py:331-360`), which takes
  ids out of the ready list and out of `processing` and overwrites their status while a worker may hold them.
- The analysis, ObjectId generation, the clock, the order of a cursor and the text of the files are inputs.
- The unique index on `full_symbol` ignores null and empty symbols; the one on `code` ignores null codes.

## Where code and documentation disagree, and what is false of the code

- `app/services/queue_service.py:83-92` calls the queue first-in first-out and pushes at the head; the worker
  also pops from the head. In every run the ready list is ordered by age with the newest id in front
  (`TaskProtocol.ReadyIsByAge`), so a pop takes the id that waits longest exactly when it is the only one
  (`TaskProtocol.PopTakesNewest`).
- The comments at `cli/main.py:207-211` promise the most recently updated section on display. The code shows
  the last section, in order of declaration, that is not None, and keeps the old text if that section is
  empty (`Reports.ShowsUpdateIffLast`).
- Statuses of agents can fall back from one chunk to the next when a text of the stream disappears
  (`AnalysisStream.VanishingTextFallsBack`); `AnalysisStream.FallsBackAtIff` is the exact condition on the stream.
- `investment_plan` depends on earlier chunks exactly when the bull history is empty or ends with a newline
  (`InvestmentPlans.IndependentIff`, `AnalysisStream.LastLineEmptyIff`).
- `fix_logger_position` is not idempotent. `LoggerPosition.SecondRunChangesIff` says exactly when a second run
  changes the file again, `LoggerPosition.SecondRunOnText` exactly when it writes it again (perhaps unchanged),
  and `LoggerPosition.FileGrows` shows a situation in which every further run makes the file longer.
  `LoggerPosition.DriftingExample` is a text in that situation.
- The test `'logging_manager' in lines[...]` at `scripts/fix_logging_imports.py:47` asks for a line that is
  exactly `logging_manager`, so old definitions stay and a further run adds one less those it marks
  (`LoggingPipeline.DefinitionsOfTwoRuns`). Running the script on its own output changes the file again exactly
  when the first run rewrote it (`LoggingPipeline.SecondRunHarmlessIff`).
- For a path with `tradingagents` in it the test for `agents` always succeeds, so the names tested after it
  are never chosen (`LoggingImports.AgentsShadowsTheRest`).
- The correction of stock codes composes with itself only under a condition
  (`StockCodeValidator.ThroughTheForwardMapping`), and a document header survives its own parser exactly for
  versions that are not empty, on one line and without `---` (`DocHeaders.HeaderRoundTrip`).

## Model

| member | source | states |
|---|---|---|
| TaskProtocol.State.StepKeepsInv | app/worker.py:54-201 | every enabled step of a worker or client keeps the invariant: one place per id, conservation of enqueued runs, result sets equal to the logged outcomes, membership in `processing`, hash status |
| TaskProtocol.Safe | app/worker.py:54-201 | the invariant holds after every run, for any number of workers, any interleaving and errors in any call |
| TaskProtocol.OncePlaced | app/worker.py:54-201 | an id enqueued once is in exactly one of: waiting for its push, ready, held, completed, failed, dropped, stranded |
| TaskProtocol.HolderIsUnique | app/worker.py:191-195 | at most one worker holds an id, and then it is not in the ready list, which names each id at most once |
| TaskProtocol.EveryRunEndsOnce | app/worker.py:54-182 | the number of times an id was enqueued is the number of its ended runs, plus one while one is on its way |
| TaskProtocol.OutcomesRecorded | app/worker.py:157-182 | `completed` and `failed` hold exactly the ids with a run of that outcome; of an id not on its way the hash tells the latest outcome, and after a finished run it is out of `processing` |
| TaskProtocol.ResultsGrow | app/worker.py:164-181 | no step removes an id from `completed` or `failed` |
| TaskProtocol.StrandedByRaise | app/worker.py:58-67 | the stranded runs of an id are exactly its calls outside the try body that raised |
| TaskProtocol.ProcessingOnlyHeld | app/worker.py:67-180 | without such an error `processing` holds an id only while a worker is between marking and unmarking it, and surely then |
| TaskProtocol.State.HolderStep | app/worker.py:54-182 | a worker lets go of an id only by settling its run, and each own move brings that closer |
| TaskProtocol.HeldUntilSettled | app/worker.py:54-182 | a held id is settled within ten own moves of the worker, whatever the others do, and is held until then |
| TaskProtocol.StopsInTime | app/worker.py:185-201 | a worker told to stop has left its loop after twelve own moves at most |
| TaskProtocol.NeverExitsHolding | app/worker.py:185-201 | when a worker has left its loop, the id it held before has been settled |
| TaskProtocol.NeverRetried | app/worker.py:58-67 | an ended run, in particular a stranded one, is not taken up again unless the id is enqueued again |
| TaskProtocol.ReadyIsByAge | app/worker.py:191-194 | in every run the ready list is ordered by the latest push of its ids, the newest in front |
| TaskProtocol.PopTakesNewest | app/worker.py:191-194 | a successful pop takes the id pushed last; it is the one that waits longest exactly when it is the only one |
| TaskProtocol.EndedIsIdle | app/worker.py:164-181 | the event that ends a run leaves its id in no queue and with no worker |
| TaskOutcomes.FateOfRun | app/worker.py:54-182 | of a run just taken: completed exactly when since then its analysis returned a good result and no call of the worker raised, stranded exactly when the last call raised, dropped exactly when nothing was analysed, failed otherwise |
| TaskOutcomes.CompletedBySuccess | app/worker.py:122-168 | in every run an id is in `completed` only if an analysis returned a good result while its worker held it |
| TaskOutcomes.FailedByFault | app/worker.py:122-181 | an id is in `failed` only if a call raised or an analysis gave no good result while its worker held it |
| TaskOutcomes.DroppedByExpiry | app/worker.py:58-62 | as long as the hash of an id has not expired, none of its runs is dropped |
| TaskWorker.Cluster.HGetAll | app/worker.py:59-62 | the load is one protocol step: it goes on with the task exactly when its hash is there, and else drops or strands it |
| TaskWorker.Cluster.HSetResult | app/worker.py:159-163 | a result that cannot be serialised raises before anything is written and leads to the handler |
| TaskWorker.Cluster.SAddResult | app/worker.py:165-168 | filing the id ends its run with that outcome, an error leads to the handler or strands it |
| TaskWorker.Cluster.TryBody | app/worker.py:70-170 | the try body ends the run with an outcome or passes control to the handler, still holding the id; it ends completed exactly when the analysis returned a good result and no call raised |
| TaskWorker.Cluster.Handler | app/worker.py:172-181 | the handler ends the run as failed, or stranded exactly when it raises itself |
| TaskWorker.Cluster.ProcessTask | app/worker.py:54-182 | under interference by all others: the run ends with the last event, stranded exactly when an exception leaves; it ends completed exactly when the analysis returned a good result and no call raised; a finished run is in its result set, agrees with the hash and is out of `processing` |
| TaskWorker.Cluster.WorkerLoop | app/worker.py:185-201 | the loop stays a run of the protocol, never returns while holding a task, and stops only after a stop signal |
| Reports.NoReportIffNothing | cli/main.py:235-281 | the final report is None exactly when every section is empty or None |
| Reports.SectionInReport | cli/main.py:238-281 | the text of every non-empty section stands in the final report |
| Reports.SectionsInOrder | cli/main.py:238-281 | the sections follow each other there in order of declaration without overlapping |
| Reports.HeadingsAboveTexts | cli/main.py:238-281 | right above each text in the final report stands the heading of its own section |
| Reports.AnalystsComeFirst | cli/main.py:239-249 | the reports of the analysts open the final report under one heading |
| Reports.DisplayIs | cli/main.py:212-230 | the display shows the last given section under its title, and stays as it is while that section is empty |
| Reports.ShowsUpdateIffLast | cli/main.py:206-230 | a text written into a section is on display exactly when no later section was given |
| MessageBuffer.RecentAppend | cli/main.py:154-155 | appending to a full deque keeps the last `max_length` items ever added |
| MessageBuffer.MessageBuffer.AddMessage | cli/main.py:188-190 | the messages are the last `max_length` ever added, in order |
| MessageBuffer.MessageBuffer.UpdateAgentStatus | cli/main.py:196-199 | a known agent gets the status and becomes current, unknown names change nothing |
| MessageBuffer.MessageBuffer.UpdateReportSection | cli/main.py:201-204 | the section is replaced and both texts follow; the final report is a function of the sections alone |
| MessageBuffer.MessageBuffer.UpdateCurrentReport | cli/main.py:206-233 | the loop finds the last given section; an empty one leaves the display as it was |
| MessageBuffer.MessageBuffer.UpdateFinalReport | cli/main.py:235-281 | the nested tests build the report that `Reports.FinalReport` defines section by section |
| AnalysisStream.VerdictIsLast | cli/main.py:1267-1560 | of all the statuses a chunk sets one after the other, each agent is left with a closed-form verdict |
| AnalysisStream.StatusAtBoundary | cli/main.py:1267-1565 | at every chunk boundary an agent has the verdict of the latest chunk that has one, or else its first status |
| AnalysisStream.DecidedByLatest | cli/main.py:1267-1565 | when texts do not vanish, that is the verdict of the latest chunk with messages |
| AnalysisStream.NoStatusFallsBack | cli/main.py:1267-1565 | when texts do not vanish, no status falls back between two boundaries of a stream |
| AnalysisStream.FallsBackIff | cli/main.py:1267-1560 | a chunk makes an agent fall back exactly when it was completed and the chunk starts it without finishing it |
| AnalysisStream.FallsBackAtIff | cli/main.py:1267-1565 | over a whole stream: an agent falls back at a chunk exactly when the chunks before have completed it and this one starts it without finishing it |
| AnalysisStream.VanishingTextFallsBack | cli/main.py:1387-1447 | a stream in which a completed team is in progress again |
| AnalysisStream.LastLineEmptyIff | cli/main.py:1396-1397 | the last line is empty exactly when the history is empty or ends with a newline |
| AnalysisStream.LastLineIs | cli/main.py:1396-1397 | the last line is the part of the history behind its last newline |
| ChunkMessages.ChunkAdds | cli/main.py:1269-1544 | a chunk with messages adds its last message, then the voices of the debates that speak, in order, and the tool calls of that last message |
| ChunkMessages.MessagesAtBoundary | cli/main.py:1267-1565 | at every chunk boundary the messages and the tool calls are the old ones and then those of each chunk, in order |
| CurrentAgents.ChunkAgent | cli/main.py:1294-1560 | which agent a chunk leaves as the current one |
| CurrentAgents.CurrentAtBoundary | cli/main.py:1267-1565 | at every chunk boundary the current agent is the one of the latest chunk that names one |
| ChunkSections.SectionAfterChunk | cli/main.py:1294-1551 | after a chunk with messages every section but the plan holds the chunk's own report, or for the final decision the last voice of the risk debate, and else what it held before |
| ChunkSections.SectionAtBoundary | cli/main.py:1267-1551 | at every chunk boundary such a section holds the text of the latest chunk that has one for it, or else its first text |
| InvestmentPlans.PlanAfterChunk | cli/main.py:1379-1441 | only the debate writes the plan: bull block, then bear block, then manager block |
| InvestmentPlans.PlanIsRebuilt | cli/main.py:1395-1441 | with a last line of the bull the plan is put together from this chunk alone |
| InvestmentPlans.PlanPilesUp | cli/main.py:1406-1441 | without it the chunk's blocks are appended to whatever was there |
| InvestmentPlans.IndependentIff | cli/main.py:1379-1441 | the plan does not depend on the past exactly when the bull's last line is not empty |
| InvestmentPlans.NeverAccumulates | cli/main.py:1267-1441 | over a whole run: the plan at a boundary is that of the latest chunk with messages, if its bull speaks |
| AnalysisRun.UpdateResearchTeamStatus | cli/main.py:947-957 | all four members get the status |
| AnalysisRun.ProcessChunk | cli/main.py:1268-1560 | the loop body performs exactly the effects of the chunk; it adds the last message, its tool calls and the voices that speak; without messages nothing changes |
| AnalysisRun.Reset | cli/main.py:1159-1171 | nothing of an earlier run is left but its messages; only the first analyst is in progress |
| AnalysisRun.Finish | cli/main.py:1578-1588 | all agents are completed and the sections of the final state written over |
| AnalysisRun.RunStream | cli/main.py:1159-1588 | the whole run: it stops with a fresh buffer if the data preparation fails; it fails exactly without a last chunk with a final decision that can be processed; else it ends with all agents completed and a report of the final sections; the messages and tool calls are the old ones, then those of each chunk in order |
| LineEdits.PopInFront | scripts/fix_logger_position.py:161-163 | popping in front of all earlier pops works on the original indices |
| LineEdits.RemoveLines | scripts/fix_logger_position.py:161-163 | popping from the back is the order-preserving removal of the original indices |
| LoggerScan.AnalyzeFileStructure | scripts/fix_logger_position.py:52-113 | the scanning loop computes the structure defined line by line |
| LoggerScan.SplitAtCorrectPosition | scripts/fix_logger_position.py:136-138 | the position for definitions lies outside every docstring, and below it there is no import and no docstring end |
| LoggerScan.RemovalKeepsStructure | scripts/fix_logger_position.py:155-163 | the insertion index computed before the removal is valid after it, with the same lines above it |
| LoggerScan.NeedsFixIff | scripts/fix_logger_position.py:127-149 | the early returns never hide a misplaced definition |
| LoggerScan.DefinitionRemains | scripts/fix_logger_position.py:136-186 | a rewritten file still defines its logger |
| LoggerScan.SecondRun | scripts/fix_logger_position.py:52-188 | the re-analysed output needs another rewrite exactly when no proper definition existed and the insertion overflows the twenty-line limit |
| LoggerScan.RunChanges | scripts/fix_logger_position.py:151-181 | a rewriting run changes the file, except perhaps when it puts a definition back at its very end |
| LoggerScan.DriftingFile | scripts/fix_logger_position.py:140-188 | an import, more than twenty blank lines, a definition and code: such a file drifts |
| LoggerLines.DefinitionIff | scripts/fix_logger_position.py:106 | a line is a definition exactly when it starts with `logger`, `=`, `get_logger` and `(` in this order, each behind optional white space |
| LoggerPosition.FixLoggerPosition | scripts/fix_logger_position.py:115-192 | the script computes the rewritten text and whether it writes |
| LoggerPosition.ReadBack | scripts/fix_logger_position.py:183-186 | what a second run reads is what the first one wrote |
| LoggerPosition.SecondRunOnText | scripts/fix_logger_position.py:115-188 | running the script on its output rewrites it again exactly under that condition |
| LoggerPosition.SecondRunChangesIff | scripts/fix_logger_position.py:115-188 | a second run changes the text exactly when no proper definition existed, the relocation overflows the limit and the definition did not go back to the end of the file |
| LoggerPosition.EndIsStable | scripts/fix_logger_position.py:166-181 | a definition put back at the very end of the file stays there in every further run |
| LoggerPosition.AllMisplacedIsStable | scripts/fix_logger_position.py:136-188 | with all definitions misplaced and at most twenty blank lines a second run changes nothing |
| LoggerPosition.FileGrows | scripts/fix_logger_position.py:140-188 | a drifting file gets one line longer with every further run |
| LoggerPosition.DriftingText | scripts/fix_logger_position.py:88-188 | an import of get_logger, more than twenty empty lines, a definition and code: every such text drifts |
| LoggerPosition.DriftingExample | scripts/fix_logger_position.py:88-188 | such a text, line by line |
| LoggerPosition.DefinitionSurvives | scripts/fix_logger_position.py:136-186 | the text of a rewritten file still defines its logger |
| LoggerPosition.RemovalKeepsOrder | scripts/fix_logger_position.py:140-163 | exactly the misplaced definitions are removed, the other lines keep their order |
| LoggerPosition.OnlyDefinitionsMove | scripts/fix_logger_position.py:151-181 | deleting the inserted lines from the output gives the input without its misplaced definitions |
| LoggerText.StructureOnText | scripts/fix_logger_position.py:52-113 | every field of the scanner's result in terms of the text of the lines: last docstring end, last import, all definitions, logging import, definition near an import |
| LoggerText.CorrectPositionOnText | scripts/fix_logger_position.py:138 | the correct position is the line below the last import and the last docstring end of the text |
| LoggerText.NoImportBelow | scripts/fix_logger_position.py:93-96 | below it no line outside a docstring starts with `import ` or `from `, or holds `import ` without starting with `logger` or `#`, and none is a docstring on one line |
| LoggerText.RewritesIff | scripts/fix_logger_position.py:127-149 | a file is rewritten exactly when some import names the logging module and some definition is more than twenty lines below every import and docstring |
| LoggerText.TakenOutIff | scripts/fix_logger_position.py:140-163 | exactly these definitions are taken out |
| LoggerText.FirstIsPutBack | scripts/fix_logger_position.py:151-176 | the definition put back is the first one taken out, stripped |
| LoggerText.NearOnesStay | scripts/fix_logger_position.py:109-167 | nothing is put back when some definition stands at most ten lines below an import or the top |
| LoggerText.DefinitionBelowImports | scripts/fix_logger_position.py:166-176 | else the definition goes outside docstrings below every import and docstring, with only empty lines in between |
| DuplicateLoggers.ChooseKept | scripts/fix_duplicate_loggers.py:115-136 | the first definition is kept whatever the end of the import section is |
| DuplicateLoggers.FixDuplicateLoggers | scripts/fix_duplicate_loggers.py:98-163 | back-to-front pops equal a single filtering pass over the lines |
| DuplicateLoggers.FixIsIdempotent | scripts/fix_duplicate_loggers.py:98-163 | a second run changes nothing |
| DuplicateLoggers.OneDefinitionLeft | scripts/fix_duplicate_loggers.py:138-147 | exactly one definition is left if and only if there was one and every later one has the canonical spelling |
| ImportScan.FindInsertPosition | scripts/convert_prints_to_logs.py:77-107 | the scanning loop finds the insertion position |
| ImportScan.InsertBelowFirstImportBlock | scripts/convert_prints_to_logs.py:82-107 | the position is in bounds, never inside a docstring, and 0 or right below an import |
| LoggingImports.AddLoggingImport | scripts/convert_prints_to_logs.py:71-137 | the method computes the text with the block inserted |
| LoggingImports.AddingIsPureInsertion | scripts/convert_prints_to_logs.py:131-137 | taking the four inserted lines out again gives the input |
| LoggingImports.AddingIsIdempotent | scripts/convert_prints_to_logs.py:73-75 | once a file has the import, further runs leave it alone |
| LoggingImports.AgentsShadowsTheRest | scripts/convert_prints_to_logs.py:113-123 | below `tradingagents` the name is always `agents` |
| LoggingImports.NameOfPath | scripts/convert_prints_to_logs.py:109-129 | exactly which logger name is chosen for which path |
| ImportText.InsertedBelowFirstBlock | scripts/convert_prints_to_logs.py:82-135 | in terms of the text of the lines there is exactly one position outside docstrings right below the first block of imports, or at the top without imports, and the block goes there |
| LoggingImports.MarkedIff | scripts/fix_logging_imports.py:44-49 | exactly which lines are taken out |
| LoggingImports.FixLoggingImportPosition | scripts/fix_logging_imports.py:36-118 | the method computes the repositioned text |
| LoggingImports.ExactlyOneImport | scripts/fix_logging_imports.py:44-118 | after a rewrite there is exactly one import line, and every other kept line is in order |
| LoggingPipeline.OneMoreEmptyLine | scripts/fix_logging_imports.py:44-116 | a rewriting run adds one empty line and removes none |
| LoggingPipeline.HarmlessIffUnmarked | scripts/fix_logging_imports.py:36-118 | a second run leaves the lines alone exactly when nothing was marked in the first place |
| LoggingPipeline.SecondRunHarmlessIff | scripts/fix_logging_imports.py:36-118 | the same for the text of a file |
| LoggingPipeline.DefinitionsOfSecondRun | scripts/fix_logging_imports.py:47-116 | for every file the second run changes the number of definitions by one minus those marked in the output of the first |
| LoggingPipeline.DefinitionsOfTwoRuns | scripts/fix_logging_imports.py:36-118 | the same for the text of a file |
| LoggingPipeline.DefinitionsAccumulate | scripts/fix_logging_imports.py:47-116 | in particular each run adds one unless a line is exactly `logging_manager` |
| LoggingPipeline.TwoRunsDefineTwice | scripts/fix_logging_imports.py:36-118 | the same for the text of a file, run through twice |
| LoggingPipeline.OneCanonicalDefinition | scripts/fix_duplicate_loggers.py:98-163 | after both scripts exactly one canonical definition is left, or none, exactly when an oddly spelled one comes first above the block |
| StockCodeValidator.ReplaceIsSwap | scripts/stock_code_validator.py:29-32 | occurrences of a code never overlap, and a replacement completes no code across its boundary |
| StockCodeValidator.ValidateStockCode | scripts/stock_code_validator.py:7-34 | the successive replacements are the simultaneous correction of the input |
| StockCodeValidator.NoWrongCodeRemains | scripts/stock_code_validator.py:29-34 | no wrong code of the original occurs anywhere in the output |
| StockCodeValidator.OnlyLastDigitsChange | scripts/stock_code_validator.py:29-34 | a character changes exactly when it is the last digit of a wrong code of the input |
| StockCodeValidator.WrongBecomesOriginal | scripts/stock_code_validator.py:32 | where a wrong code stood the output holds the original |
| StockCodeValidator.Idempotent | scripts/stock_code_validator.py:7-34 | correcting twice is correcting once |
| StockCodeValidator.ThroughTheReverseMapping | scripts/stock_code_validator.py:23-34 | correcting to 002021 first makes no difference for 002027 |
| StockCodeValidator.ThroughTheForwardMapping | scripts/stock_code_validator.py:23-34 | the other way round exactly when neither 002026 nor 002028 occurs |
| DocHeaders.HeaderRoundTrip | scripts/batch_update_docs.py:47-56 | a trimmed version is read back from the printed header if and only if it is not empty, on one line and without `---` |
| DocHeaders.HeaderIsClosed | scripts/check_doc_consistency.py:62-67 | a printed header is always recognised and closed |
| DocHeaders.HeaderHasLines | scripts/batch_update_docs.py:47-56 | version, date, version again and status stand between the fences in this order, a line each |
| DocHeaders.SearchIsLeftmost | scripts/check_doc_consistency.py:70 | the search finds the leftmost match of the expression, in it the rightmost start of the group up to the end of the line, and nothing exactly when there is no match |
| DocChecks.DocumentationUpdater.AddVersionHeaders | scripts/batch_update_docs.py:58-86 | exactly the readable, writable core documents without header get it in front of their unchanged text, and are listed once each |
| DocChecks.SecondPassIsIdle | scripts/batch_update_docs.py:72-75 | a second pass writes nothing |
| DocChecks.CheckVersionConsistency | scripts/check_doc_consistency.py:42-85 | the loop reports the issues of each document in order; an issue is reported exactly when a document deserves it, and none exactly when all documents pass |
| DocChecks.ReportedAsDeserved | scripts/check_doc_consistency.py:58-83 | what is said about a document: unreadable, a core path without header, a closed header without version or with another one; at most one of these |
| DocChecks.NoIssueIff | scripts/check_doc_consistency.py:58-83 | nothing is said exactly when it can be read and has the version of the project, a header that is never closed, or none outside the core parts |
| DocChecks.AllReportedAsDeserved | scripts/check_doc_consistency.py:56-83 | over all documents an issue is reported exactly when one of them deserves it |
| DocChecks.NothingReportedIff | scripts/check_doc_consistency.py:56-83 | over all documents nothing is reported exactly when all pass |
| DocChecks.FreshHeaderPasses | scripts/check_doc_consistency.py:60-76 | a document that just got its header passes exactly when the version is printable |
| DocChecks.UpdateThenCheck | scripts/check_doc_consistency.py:56-83 | updating and then checking any documents leaves no issue exactly when each one got a header with a printable version, or was not touched and passes as it is |
| QuoteCodes.AfterOutcome | scripts/fix_market_quotes_null_code.py:58-85 | after every record it is known exactly which documents exist and with which code |
| QuoteCodes.CodesStayUnique | scripts/fix_market_quotes_null_code.py:58-79 | no step makes two documents share a code |
| QuoteCodes.CountersAddUp | scripts/fix_market_quotes_null_code.py:58-87 | fixed plus deleted is the number of null records, and the size drops by exactly deleted |
| QuoteCodes.FinalCodes | scripts/fix_market_quotes_null_code.py:58-94 | at the end no code is null, other documents are untouched and the codes are the old ones plus the symbols |
| QuoteCodes.CountsIgnoreOrder | scripts/fix_market_quotes_null_code.py:50-87 | the counts do not depend on the order of the cursor |
| QuoteCodes.MarketQuotes.FixNullCodeRecords | scripts/fix_market_quotes_null_code.py:55-87 | the loop computes that outcome and the unique index never rejects an update |
| FullSymbols.SymbolNamesExchange | scripts/fix_null_full_symbol.py:45-62 | which ending a six-character code gets by its leading digits, in both scripts, and that other codes get none |
| FullSymbols.CodeRecovered | scripts/fix_null_full_symbol.py:32-62 | the stripped code is a prefix of the symbol, and six characters give it back |
| FullSymbols.GenerateIdempotent | scripts/fix_null_full_symbol.py:46-62 | a generated symbol is its own full symbol |
| FullSymbols.SameSymbol | scripts/fix_null_full_symbol.py:32-62 | exactly when two codes get the same symbol |
| FullSymbols.InjectiveOnSix | scripts/fix_full_symbol_index.py:30-51 | both generators are injective on six-character codes |
| FullSymbols.GeneratorsAgree | scripts/fix_full_symbol_index.py:30-51 | they agree exactly on trimmed six-character codes with a known prefix |
| SymbolRepair.CountersAddUp | scripts/fix_null_full_symbol.py:113-159 | success plus error plus skipped is the number of records |
| SymbolRepair.RemainingUnset | scripts/fix_null_full_symbol.py:113-168 | the unset symbols fall by one with every success and by nothing else |
| SymbolRepair.SymbolsStayUnique | scripts/fix_null_full_symbol.py:137-147 | the unique index stays satisfied after every record |
| SymbolRepair.OthersUnchanged | scripts/fix_null_full_symbol.py:117-147 | only selected documents change, and only in their symbol |
| SymbolRepair.NoErrorIffNoClash | scripts/fix_null_full_symbol.py:117-159 | no record fails exactly when no new symbol clashes; then all are written |
| SymbolRepair.FinalSymbols | scripts/fix_null_full_symbol.py:113-159 | under any refused updates and any symbols already there: of the records that ask for a free symbol the first whose update is not refused gets it, all others stay as they are; success and skipped count accordingly |
| SymbolRepair.FilledRightly | scripts/fix_null_full_symbol.py:117-147 | a document is as before, or its unset symbol names the exchange of its code |
| SymbolRepair.FilledNames | scripts/fix_full_symbol_index.py:30-51 | a null symbol of a six-character code is filled in with the exchange of the code, unknown ones as Shenzhen; else nothing changes |
| SymbolRepair.ConsistentMigration | scripts/fix_null_full_symbol.py:117-168 | on a consistent collection the migration never collides and every code gets its symbol, with the right exchange |
| SymbolRepair.StockBasicInfo.FixNullFullSymbol | scripts/fix_null_full_symbol.py:113-159 | the loop computes that outcome; every symbol it fills in names the exchange of the code |
| SymbolRepair.IndexCanBeRecreated | scripts/fix_full_symbol_index.py:120-145 | after the update the index can be created again exactly when no two documents share a code |
| SymbolRepair.StockBasicInfo.FixFullSymbolIndex | scripts/fix_full_symbol_index.py:92-145 | without the index every document with a six-character code gets its symbol, which names the exchange of the code; the counters count updates and errors |
| ProviderIds.Script.CountersAddUp | scripts/fix_provider_id_types.py:60-90 | fixed plus failed is the number of string ids handled |
| ProviderIds.Script.HoldersCount | scripts/fix_provider_id_types.py:63-90 | a payload gains exactly one document for each provider copied but not deleted |
| ProviderIds.Script.NothingIsLost | scripts/fix_provider_id_types.py:76-80 | no payload has ever fewer documents than at the start, not even between insert and delete |
| ProviderIds.Script.FinalProviders | scripts/fix_provider_id_types.py:60-90 | under any failures: which ids are there, what each document holds and the time stamp of the copies; fixed counts the providers copied and deleted |
| ProviderIds.Script.SmoothRun | scripts/fix_provider_id_types.py:63-90 | without failures all are fixed, and each payload has as many documents as before |
| ProviderIds.NoStringIdRemains | scripts/fix_provider_id_types.py:37-90 | and then no string id is left |
| ProviderIds.LlmProviders.FixProviderIdTypes | scripts/fix_provider_id_types.py:34-90 | under any failures the loops compute that outcome: the documents, their contents and the number fixed; every state on the way keeps all payloads |

## Left out

- TaskWorker.Cluster.WorkerLoop: runs for any given number of rounds, because the source loop has no end of its own.
- TaskProtocol.State.Step: the pause of one second after an error and the timeout of the pop are not timed; a pop of an empty list just yields nothing.
- AnalysisRun.RunStream: whether the data preparation and `process_signal` succeed is an input.
- `publish_progress` and all log, console and layout output; the prompts kept in `completed_analysts`.
- Time stamps of messages, and the decorators of `cli/main.py` that write messages and sections to files.
- `get_ticker`, `select_market` and the market inference: prefix tests without state, they would add easy members only.
- The conversion of a message's content to text (`extract_content_string`): its result is an input.
- `convert_print_statements`, `fix_code_blocks`, the walk over the file system and the reports of the scripts.
- JSON, the real drivers, database-side evaluation of the selecting queries, and index creation itself.
- The scheduler, the web application, and the batch, concurrency and visibility features of the queue service.

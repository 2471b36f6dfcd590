# Verification of the capture, audit and critical-path cores

A Dafny model of four parts of the repository, with proofs.

**Collector** (`Telemetry`, `Session`, `HookTransaction`, `Lifecycle`, `Parentage`, `ToolUse`, `SessionRecords`,
`Batching`, `SortedKeys`, `Wrappers`). Each Claude Code hook turns a session's state into a new state and a list of operations. The handlers
are methods over a mutable session state and a transaction, proved equal to `Session.Handle`; the lifecycle,
parentage, tool-use, record, batching and acceptance results are about every run of those functions.

**Journal** (`Journal`, `ExactlyOnce`, `SessionOrder`, `CrashRefinement`, `SessionEffect`, `OneExecution`,
`JournalHistory`, `JournalTheorems`, `CrashFree`, `OrderlyNeeded`, `Collector`, `SpoolBudget`). Hooks are files; one worker prepares
them, freezes the outcome into the file, saves the state, delivers with a durable cursor and removes the file. The
journal is a step machine over disk, server log and worker, in which hooks arrive and the process dies between any
two steps. `Collector.Store` is the worker as it runs, and each of its effects is a step of that machine.
`SpoolBudget` is a second machine for the spool directory: many writers under a lock, removals without it, crashes
that leave temporary files.

**Canonical JSON and audit chain** (`Decimal`, `CanonicalNumber`, `CanonicalJson`, `AuditHash`, `AuditChain`,
`AuditService`, `AuditRace`). Number literals (section 6 of RFC 8259) are rewritten to one spelling per rational number, at any
depth; audit events are hashed over that form and chained; verification, deep verification, appending and
re-anchoring run over the stored rows.

**Critical path and transcripts** (`CriticalPath`, `Transcript`, `TranscriptTurns`, `TranscriptMeaning`, `TranscriptCapture`). Kahn's sort,
a longest-path recurrence and the walk back, on any graph; and the one-pass transcript reader, which agrees with
cutting the wanted turn out first, with the refinement of a captured turn over growing transcripts.

`dafny verify dfyconfig.toml` checks the whole project.

## Where the code does less than one might expect

What is said here is proved by the members named; where an expected property fails, they give the exact condition
under which it holds.

- A prompt that arrives while a turn is pending overwrites the turn's entry, and that span is never ended
  (`Lifecycle.SessionEndEndsAll`, `Lifecycle.FirstTurnStaysRunning`).
- A tool whose use id is `__turn__` shares the turn's entry: a stop ends it without recording it as completed, and
  usage reported by that stop names it as parent (`ToolUse.OneTerminalPerToolUse`, `ToolUse.StopEndsToolTwice`,
  `Parentage.ParentIsTurn`, `Parentage.UsageNotUnderTurn`).
- A tool name equal to a completed use id makes pending keys and completed tools overlap
  (`ToolUse.RunStaysDisjoint`, `ToolUse.PendingMeetsCompleted`).
- A hook stamped before the start of a span it ends queues a span the server rejects (`ToolUse.RunAccepted`,
  `ToolUse.EarlyEndRejected`).
- A closed state file that survives its session end acts as a missing one only for hooks that reset first
  (`Lifecycle.ClosedCountsAsMissing`); only these may follow a session end if every run is to refine the crash-free
  run (`OrderlyNeeded.RefinementNeedsResets`).
- A temporary file left by a crash uses up the spool budget for good (`SpoolBudget.LeftoverIsCharged`,
  `SpoolBudget.CrashFillsSpool`).
- The exponent range is checked on the written exponent only, so the canonical spelling of an accepted number may
  itself be refused (`CanonicalNumber.IdempotentIffInRange`, `CanonicalNumber.NotIdempotent`).
- The empty chain, and a chain with an event that cannot be hashed, share their root with other intact chains
  (`AuditChain.RootDeterminesIff`).
- For an event whose link and hash are both wrong the two scans give different reasons (`AuditService.ScansAgree`,
  `AuditService.ReasonsDiffer`).
- Appending and re-anchoring take different advisory locks (`api/internal/storage/postgres/audit_store.go:586` and
  `api/internal/storage/postgres/audit_store.go:939`); overlapping, they leave a broken link
  whenever re-anchoring moves the last hash; if one event failed, it does unless only that event's link was false
  (`AuditRace.RaceIntactIff`, `AuditRace.OverlapIntactIff`, `AuditRace.OverlapBreaks`).
- The comment at `web/lib/critical-path.ts:34-35` says nodes that Kahn's loop leaves out keep their own duration. They
  are scored like the rest and keep it only if nothing of positive duration leads to them in the order of turns
  (`CriticalPath.KeepsOwnDuration`, `CriticalPath.LeftOutIsRaised`, `CriticalPath.TwoCycle`).

## Model

| member | source | states |
|---|---|---|
| HookTransactions.HookTransaction.EnsureExecution | claude-code-plugin/collector/mapping.go:116-154 | a closed state is reset first; an open execution is kept and nothing is asked; otherwise one start is asked for under a key made from the persisted hook id; a failing server leaves an error |
| HookTransactions.HookTransaction.IngestSpans | claude-code-plugin/collector/deadletter.go:270-293 | the loop appends to the transaction exactly the greedy split of the spans into requests |
| HookTransactions.HookTransaction.HandleSessionStart | claude-code-plugin/collector/mapping.go:157-201 | the handler leaves the state and the operations `Session.Handle` names, about which the lifecycle results are proved, unless the server was asked and did not answer |
| HookTransactions.HookTransaction.HandleUserPrompt | claude-code-plugin/collector/mapping.go:204-260 | the same for a prompt: a new turn span under `__turn__`, emitted RUNNING, then the audit event |
| HookTransactions.HookTransaction.HandlePreTool | claude-code-plugin/collector/mapping.go:271-313 | the same for a tool start: nothing for a completed or already pending tool; otherwise a pending span, added before the execution is ensured |
| HookTransactions.HookTransaction.HandlePostTool | claude-code-plugin/collector/mapping.go:361-466 | the same for a tool end: the pending span, or a fresh one, ends; a named use is recorded as completed |
| HookTransactions.HookTransaction.HandlePermission | claude-code-plugin/collector/mapping.go:472-510 | the same for a permission request: one span that starts and ends at once, under the turn |
| HookTransactions.HookTransaction.HandleNotification | claude-code-plugin/collector/mapping.go:516-529 | the same for a notification: one audit event and no other change |
| HookTransactions.HookTransaction.HandleSubagentStop | claude-code-plugin/collector/mapping.go:531-583 | the same for a subagent stop |
| HookTransactions.HookTransaction.HandleStop | claude-code-plugin/collector/mapping.go:585-696 | the same for a stop: the pending turn ends, usage follows as its child, and the turn is cleared |
| HookTransactions.HookTransaction.HandleSessionEnd | claude-code-plugin/collector/mapping.go:706-773 | the same for a session end: all pending spans are cancelled in key order, the execution ends, the state is marked closed |
| HookTransactions.HookTransaction.Dispatch | claude-code-plugin/collector/spool.go:200-225 | each event reaches its handler, so every hook leaves what `Session.Handle` names |
| SortedKeys.Sort | claude-code-plugin/collector/mapping.go:712-716 | the keys in ascending order, each once: the one ascending listing of the set |
| Session.HandleEmits | claude-code-plugin/collector/deadletter.go:270-303 | splitting into requests and mixing in audit operations loses, repeats and reorders no span |
| Lifecycle.ClosedCountsAsMissing | claude-code-plugin/collector/spool.go:346-355 | the closed state a run leaves on disk acts as a missing one for exactly the hooks that reset first (start, prompt, permission, subagent stop, stop) |
| Batching.SplitSound | claude-code-plugin/collector/deadletter.go:271-291 | the requests concatenate to the input, none is empty, each fits the limit or is a single span |
| Batching.SplitOptimal | claude-code-plugin/collector/deadletter.go:271-291 | no other contiguous split whose parts fit or are single uses fewer requests |
| Batching.OnlyLoneItemsAreTooLarge | claude-code-plugin/collector/spool.go:386-393 | a request exceeds the limit exactly when it is one span that exceeds it alone |
| Lifecycle.SpanLifecycle | claude-code-plugin/collector/mapping.go:204-312 | in every run, a span emitted RUNNING is pending, or was an overwritten turn, or has exactly one later record, a terminal one; never two of these |
| Lifecycle.SessionEndLeavesOnlyOverwritten | claude-code-plugin/collector/mapping.go:706-740 | after a session end a span emitted RUNNING has ended exactly when it is not an overwritten turn |
| Lifecycle.SessionEndEndsAll | claude-code-plugin/collector/mapping.go:226-233 | a session end leaves no span RUNNING exactly when no prompt of the run arrived while a turn was pending |
| Lifecycle.FirstTurnStaysRunning | claude-code-plugin/collector/mapping.go:226-233 | two prompts and a session end: the first turn has one record, RUNNING |
| Parentage.ParentBeforeChild | claude-code-plugin/collector/mapping.go:225-308 | in every run, each parent an emitted span names was emitted RUNNING earlier in the same execution |
| Parentage.ParentIsTurn | claude-code-plugin/collector/mapping.go:585-696 | those parents are turn spans exactly when no stop reports usage while a tool holds the `__turn__` entry |
| Parentage.UsageNotUnderTurn | claude-code-plugin/collector/mapping.go:585-696 | a tool with the use id `__turn__`, then a stop reporting tokens: the usage span's parent is no turn |
| ToolUse.OneTerminalPerToolUse | claude-code-plugin/collector/mapping.go:283-466 | a tool use id gets at most one terminal span per execution in all runs, exactly when it is neither empty nor `__turn__` |
| ToolUse.StopEndsToolTwice | claude-code-plugin/collector/mapping.go:585-627 | start and stop twice with the id `__turn__` give two terminal spans |
| ToolUse.UnnamedTwice | claude-code-plugin/collector/mapping.go:472-510 | two spans without a tool use id may both be terminal |
| ToolUse.RunStaysDisjoint | claude-code-plugin/collector/mapping.go:361-390 | pending keys and completed tools stay apart all through a run exactly when no hook of it files a span under a completed key in the state it meets |
| ToolUse.PendingMeetsCompleted | claude-code-plugin/collector/mapping.go:286-299 | a tool named like a use id completed just before, and carrying none itself, leaves a pending key that is also completed |
| ToolUse.EmitsAccepted | api/internal/execution/validation.go:24-50 | every span a hook emits passes span validation exactly when the hook is neither nameless nor stamped before a span it ends |
| ToolUse.RunAccepted | api/internal/execution/validation.go:24-50 | every span of a run passes validation exactly when no hook in it is nameless or stamped before a span it ends |
| ToolUse.InOrderNotBackdated | claude-code-plugin/collector/mapping.go:361-466 | with hook times in order no hook is stamped before a span it ends |
| ToolUse.EarlyEndRejected | api/internal/execution/validation.go:46-48 | a tool started at 2 and ended at 1 is queued, and rejected by the server |
| SessionRecords.ExecutionEnds | claude-code-plugin/collector/mapping.go:740-750 | a hook queues the end of an execution exactly if it is a session end that finds one open, for that execution and at its time; afterwards only audit events are queued for it in the whole run |
| SessionRecords.RunEnds | claude-code-plugin/collector/mapping.go:740-750 | an end of an execution is among a run's operations exactly if some hook of it is a session end that found it open, at that hook's time |
| SessionRecords.SpansSay | claude-code-plugin/collector/mapping.go:204-740 | a span is RUNNING exactly from a prompt or a tool start, FAILED exactly for a tool reported failed, CANCELLED exactly by a session end; it carries the execution and time of its hook, and under a new id the kind, name, parent and use id the hook reports |
| SessionRecords.AuditsSay | claude-code-plugin/collector/mapping.go:157-773 | each hook queues one audit event, for its execution and time, saying what it reports; a tool start and a repeated tool end queue none |
| SessionRecords.TerminalAgrees | claude-code-plugin/collector/mapping.go:361-740 | in every run the record that ends a span has the execution, start, name and parent of the one that opened it, and its kind, but for tools filed under `__turn__` |
| SessionRecords.StatesSay | claude-code-plugin/collector/mapping.go:204-773 | the turn lasts from its prompt to a stop or session end, a named tool use stays completed until the session ends, and a span is pending from the hook that files it to one that takes it out |
| ExactlyOnce.ExactlyOnceEffect | claude-code-plugin/collector/spool.go:301-356 | at any moment of any run with crashes: sent indices rise by at most one, every copy is the frozen one, a server ignoring repeats holds a prefix reaching the durable cursor or one past it, and a file is gone only when that is everything |
| JournalTheorems.OrderWithinSession | claude-code-plugin/collector/spool.go:267-344 | when anything of a hook is sent, every earlier hook of its session is finished and wholly applied, and nothing of it is sent again, across rejections and configuration changes |
| JournalTheorems.DrainIsolation | claude-code-plugin/collector/spool.go:267-344 | a drain at the end of its list has finished exactly the listed hooks that are not, and do not come after, a refused or rejected listed hook of their own session |
| JournalTheorems.BlameIffCause | claude-code-plugin/collector/spool.go:271-345 | in every reachable state of a drain, a session is blocked on a file exactly when a step of that drain found the file refused under the same configuration, or had an operation of it rejected |
| JournalTheorems.OneExecutionPerEpoch | claude-code-plugin/collector/mapping.go:116-172 | each start request carries the key of its own persisted hook; retries repeat it; between starts of two hooks the session was closed |
| CrashFree.CrashFreeStates | claude-code-plugin/collector/spool.go:227-320 | the state each finished hook leaves is that of the crash-free fold of the handlers over the session's hooks so far |
| CrashFree.CrashFreeRefinement | claude-code-plugin/collector/spool.go:227-355 | what the server holds of a session lies between the operations of the crash-free run of its finished hooks and those of its run so far |
| CrashFree.ServerSeesSpanLifecycle | claude-code-plugin/collector/spool.go:301-356 | whatever crashes, the server sees of each span at most one RUNNING record and then at most one terminal record |
| CrashFree.ServerSeesEnds | claude-code-plugin/collector/spool.go:301-356 | whatever crashes, the server sees ended only what a session end ended, at its time, with nothing but audit events after, and sees the end of every execution a finished session end found open |
| CrashFree.ServerSeesAgreement | claude-code-plugin/collector/spool.go:301-356 | whatever crashes, the record the server sees end a span agrees with the one that opened it |
| OrderlyNeeded.RefinementNeedsResets | claude-code-plugin/collector/spool.go:346-355 | hooks of an event may follow a session end in every run without departing from the crash-free run exactly when they reset first |
| CrashFree.ServerSeesParentsFirst | claude-code-plugin/collector/spool.go:301-356 | whatever crashes, the server sees every parent open before its children |
| CrashFree.ServerSeesOneTerminal | claude-code-plugin/collector/spool.go:301-356 | whatever crashes, the server sees at most one terminal record per tool use and execution |
| Collector.Store.EnqueueHook | claude-code-plugin/collector/spool.go:182-198 | the new file is written and nothing else changes: the machine's enqueue step |
| Collector.Store.RunHandler | claude-code-plugin/collector/spool.go:233-252 | one preparation: an error exactly when a start was needed and not answered; otherwise state and operations are the crash-free ones; the key asked for |
| Collector.Store.PrepareHook | claude-code-plugin/collector/spool.go:227-252 | preparing is a step of the machine, and on failure leaves the file as it was |
| Collector.Store.PersistHook | claude-code-plugin/collector/spool.go:301-311 | the preparation is frozen into the file before anything else happens |
| Collector.Store.SaveState | claude-code-plugin/collector/state.go:105-151 | the state file becomes the frozen state |
| Collector.Store.DeliverNext | claude-code-plugin/collector/spool.go:321-345 | one operation is sent and its outcome recorded: blocked exactly when it was refused, done exactly when it was accepted and the cursor recorded |
| Collector.Store.Deliver | claude-code-plugin/collector/spool.go:321-345 | from the cursor on, operations are sent until one is not accepted; done only when all are acknowledged, blocked exactly when one of these requests was refused for good, and then the file records it if it can be written; no other file changes |
| Collector.Store.RemoveHook | claude-code-plugin/collector/spool.go:346-355 | the file is removed only when complete, and then the state file of an ended session exactly if that removal succeeds |
| Collector.Store.Process | claude-code-plugin/collector/spool.go:301-355 | one file from reading to its end, every effect a step of the machine; it blocks its session exactly when one of its own deliveries was refused |
| Collector.Store.Visit | claude-code-plugin/collector/spool.go:271-355 | one listed file is passed over if its session is blocked, refused exactly if it is marked under the configuration, processed otherwise; its session becomes blocked only by that mark or by a refused delivery of it |
| Collector.Store.DrainHooks | claude-code-plugin/collector/spool.go:254-358 | every effect of a drain is a run of the machine; with no failing call or write it finishes, whatever is refused; a finished drain has finished exactly the listed hooks such that neither they nor an earlier listed hook of their session was marked before or refused during the drain, and each blocked session names such a hook; if nothing fails, each session's state file is what its last delivered hook froze, and is gone if that hook is finished and ended the session |
| SpoolBudget.BudgetKept | claude-code-plugin/collector/spool.go:111-169 | hook files never exceed the limit, over all interleavings of writers, removals and crashes |
| SpoolBudget.NoEviction | claude-code-plugin/collector/spool.go:109-169 | a hook file no writer targets and no step removes is unchanged in every run |
| SpoolBudget.LeftoverIsCharged | claude-code-plugin/collector/spool.go:119-152 | a temporary file left by a crash stays for ever and counts against every later write |
| SpoolBudget.CrashFillsSpool | claude-code-plugin/collector/spool.go:119-152 | a run of four steps ending in a crash after which only empty writes are ever approved |
| SpoolBudget.SpoolDirectory.MeasureFiles | claude-code-plugin/collector/spool.go:129-142 | the running sum is at least what remains of the other files, whatever is removed meanwhile, and exact when nothing is |
| SpoolBudget.SpoolDirectory.ReplaceFile | claude-code-plugin/collector/spool.go:146-169 | the file is replaced through a temporary one and the budget kept |
| SpoolBudget.SpoolDirectory.WriteEnvelope | claude-code-plugin/collector/spool.go:111-169 | no other file changes; the budget is kept; undisturbed, the write succeeds exactly when the others and the new bytes fit |
| Decimal.TextUnique | api/internal/canonical/json.go:36-66 | a number's text is read in one way: two grammatical literals with one text are equal |
| CanonicalNumber.NumberOfText | api/internal/canonical/json.go:38-66 | on a grammatical literal the text rewriting computes sign, significant digits and exponent, refusing exactly the written exponents out of range |
| CanonicalNumber.SameTextIffSameNumber | api/internal/canonical/json.go:16-66 | two accepted spellings get one text exactly when they denote the same rational number |
| CanonicalNumber.RewritingKeepsNumber | api/internal/canonical/json.go:36-66 | the text is refused exactly when its exponent is out of range; otherwise it becomes a literal of the same value without fraction, outer zeros, plus sign or capital mark |
| CanonicalNumber.IdempotentIffInRange | api/internal/canonical/json.go:44-66 | rewriting an accepted number again changes nothing exactly when its digits are all zero or its exponent over its significant digits is in range; otherwise the rewritten text is refused |
| CanonicalNumber.NotIdempotent | api/internal/canonical/json.go:44-66 | 1.5e-16383 is accepted and becomes 15e-16384, which is refused |
| CanonicalJson.Numbers | api/internal/canonical/json.go:36-87 | the loops over slices and maps compute the rewriting of every number at any depth, or fail if one is refused |
| CanonicalJson.RewriteKeepsValue | api/internal/canonical/json.go:36-87 | a value is rewritten exactly when its exponents are in range, into the same value |
| CanonicalJson.SameFormIffSameValue | api/internal/canonical/json.go:16-87 | two accepted values have one canonical form exactly when they are the same value |
| CanonicalJson.RewriteIdempotent | api/internal/canonical/json.go:36-87 | a canonical form is its own canonical form exactly when its exponents are in range |
| AuditHash.HashText | api/internal/audit/hash.go:17-43 | the digest is empty exactly when the metadata does not canonicalise, and never the genesis marker |
| AuditHash.SameHashIffSameContent | api/internal/audit/hash.go:12-43 | two events that canonicalise have one hash exactly when they have the same content |
| AuditHash.SpellingKeepsHash | api/internal/audit/hash.go:12-43 | respelling numbers, as JSONB storage does, keeps the hash |
| AuditChain.AlteredEventBreaks | api/internal/audit/service.go:301-352 | altering an event under its stored hashes breaks that event alone, exactly when its content changes |
| AuditChain.RehashedEventBreaksSuccessor | api/internal/audit/service.go:301-352 | altering it and recomputing its hash breaks its successor alone, exactly when its content changes |
| AuditChain.RootDeterminesHistory | api/internal/audit/service.go:301-352 | two intact chains with one root have the same length and content, if the events of the first canonicalise |
| AuditChain.RootDeterminesIff | api/internal/audit/hash.go:38-40 | an intact chain's root determines its history exactly when it is nonempty and all its events canonicalise |
| AuditChain.ReanchorEffect | api/internal/storage/postgres/audit_store.go:931-990 | re-anchoring keeps every content and every event before the start, and makes every later event verify |
| AuditChain.ReanchorRepairs | api/internal/audit/repository.go:58-63 | the re-anchored chain is intact exactly when the events before the start verify |
| AuditService.ExtendedVerifies | api/internal/storage/postgres/audit_store.go:570-640 | a batch extends the chain by rows that verify and canonicalise, and leaves the verdict on the rest as it was |
| AuditService.RetryAddsNothing | api/internal/storage/postgres/audit_store.go:568-613 | appending a batch again adds nothing |
| AuditService.FailingExactly | api/internal/audit/service.go:316-346 | the failing events of a window are exactly those in it whose link or hash is wrong |
| AuditService.ValidIffEachVerifies | api/internal/audit/service.go:301-352 | a window is valid exactly when each event in it verifies on its own |
| AuditService.ScansAgree | api/internal/audit/service.go:358-422 | the full scan agrees with the first-failure scan on validity, count and first event; on the reason, exactly when that event does not fail both ways |
| AuditService.ReasonsDiffer | api/internal/audit/service.go:358-422 | whatever an event says, alone with a false link and a false hash it is reported for its link by one scan and for its hash by the other |
| AuditService.ShallowSays | api/internal/audit/service.go:300-357 | the first-failure scan: how many events are in the window, the first of them that fails and why, and the hash of the last verifying one before it |
| AuditService.DeepSays | api/internal/audit/service.go:358-422 | the full scan: every failing event of the window in order, with its id, number, time, action, actor and reason, and the hash of the last that verifies |
| AuditService.Service.ExpectedPrevious | api/internal/storage/postgres/audit_store.go:776-805 | the expected link is the hash of the event stored just before, or the genesis marker |
| AuditService.Service.Verify | api/internal/audit/service.go:301-352 | validity, count, first failure with its reason, and the root: the last good hash before it |
| AuditService.Service.VerifyDeep | api/internal/audit/service.go:358-422 | every failing event in chain order with its reason, and the last good hash of the window |
| AuditService.Service.VerifyOne | api/internal/audit/service.go:451-486 | the verdict on one event; not found exactly when no event has the id |
| AuditService.Service.PrepareBatch | api/internal/audit/service.go:224-253 | refused batches; the valid events in order, each with its own id and time or those supplied, its metadata redacted and nothing else touched; the indices of exactly the invalid ones |
| AuditService.Service.Validate | api/internal/audit/validation.go:10-39 | the checks accept exactly the events in range whose actor, action, resource and outcome are named and known |
| AuditService.Service.AppendBatch | api/internal/storage/postgres/audit_store.go:570-640 | succeeds exactly when every event not yet stored canonicalises, and otherwise stores nothing; the new rows are, in the batch's order, one for each first event with an id not stored before, numbered on, verifying, with that event's id, actor, action, resource, outcome, time to the microsecond and metadata as a value |
| AuditService.Service.LogBatch | api/internal/audit/service.go:143-161 | the same in terms of the batch submitted: one row for each acceptable event with a new id, with its own id and time or those supplied, and its metadata redacted; the ids of the acceptable events and the positions of the others are reported |
| AuditService.Service.ReanchorFrom | api/internal/storage/postgres/audit_store.go:931-990 | the rows from the given number on are relinked and rehashed in order, and counted |
| AuditService.Service.ReanchorChain | api/internal/audit/service.go:497-557 | refusals change nothing; otherwise the chain is re-anchored from the named event and one verifying event is added, which names that event, the reason, its number and how many were re-anchored |
| AuditService.Service.ReanchorAll | api/internal/audit/service.go:429-448 | succeeds exactly on a broken chain, leaves it intact, one event longer, with everything before the first break and all content as it was |
| AuditRace.AloneExtends | api/internal/storage/postgres/audit_store.go:590-615 | rows linked to the head an append finds are what appending new events alone stores |
| AuditRace.SchedulesAreAll | api/internal/storage/postgres/audit_store.go:586-612 | the six orders of the four turns are all in which each transaction reads before it writes |
| AuditRace.RaceOutcome | api/internal/storage/postgres/audit_store.go:939-990 | the rows each order of the two transactions leaves |
| AuditRace.RaceIntactIff | api/internal/storage/postgres/audit_store.go:931-990 | an append beside a re-anchoring leaves the chain intact exactly when the earlier events verify and nothing was appended, or they did not overlap, or the last hash stayed |
| AuditRace.RaceRuns | api/internal/storage/postgres/audit_store.go:931-990 | every order of the turns can be run |
| AuditRace.OverlapIntactIff | api/internal/storage/postgres/audit_store.go:931-990 | re-anchoring from an event after which all verify, on a chain that can be hashed, overlapping an append of new events: intact exactly when the earlier events verify and at most the link of that event was false; broken whenever just one of its link and hash was false |
| AuditRace.OverlapBreaks | api/internal/storage/postgres/audit_store.go:931-990 | whatever event it holds, a one-event chain with a false hash is broken by every overlapping run, though re-anchoring alone repairs it |
| AuditRace.RecordedIntactIff | api/internal/audit/service.go:516-545 | the append of the event recording the re-anchoring, wherever it falls, changes none of this |
| CriticalPath.IndexLinks | web/lib/critical-path.ts:22-32 | child lists and counts of incoming links, in insertion order, for any nodes and edges |
| CriticalPath.KahnSort | web/lib/critical-path.ts:34-49 | the loop ends on any input; its output is topological, without repeats, and what it leaves out still waits for a link from outside |
| CriticalPath.AllEmitted | web/lib/critical-path.ts:34-53 | in an acyclic graph nothing is left out |
| CriticalPath.TopologicalOrder | web/lib/critical-path.ts:34-53 | every node is listed once, first what Kahn's loop emits, then the rest in node order; on a well-formed graph the order is a topological sort of exactly the nodes |
| CriticalPath.HeaviestParent | web/lib/critical-path.ts:73-82 | the best parent's score, or none when no score is positive |
| CriticalPath.ScoreAlong | web/lib/critical-path.ts:55-86 | on any graph, at its turn each vertex has no recorded parent exactly when no parent had a positive score, and else the best parent's score at that turn plus its own duration; on a topological order no parent offers more |
| CriticalPath.KeepsOwnDuration | web/lib/critical-path.ts:34-35 | a vertex keeps its own duration as score exactly when no walk leads to it from a vertex of positive duration along vertices that have their turns in order |
| CriticalPath.LeftOutIsRaised | web/lib/critical-path.ts:34-35 | where all durations are positive, no vertex that Kahn's loop leaves out keeps its own |
| CriticalPath.TwoCycle | web/lib/critical-path.ts:34-35 | two nodes linked both ways, of duration one: neither is sorted, and they score two and three |
| CriticalPath.Tail | web/lib/critical-path.ts:88-96 | a node of maximal score; none exactly when there is none |
| CriticalPath.TraceBack | web/lib/critical-path.ts:97-103 | the walk back ends on any input and is a directed walk; on a scored graph its weight is the tail's score |
| CriticalPath.PathBound | web/lib/critical-path.ts:55-86 | no path outweighs the score of the vertex it ends in |
| CriticalPath.ComputeCriticalPath | web/lib/critical-path.ts:14-105 | always the vertex set of a walk along parent_child edges of the input; on a hierarchy, of a chain of nodes whose duration no chain exceeds; causal edges do not count |
| CriticalPath.LinksAreParents | web/lib/critical-path.ts:26-33 | the edges looked at are exactly those of kind parent_child |
| CriticalPath.WeightOfNode | web/lib/critical-path.ts:19-20 | a node weighs its duration, and nothing if that is negative |
| Transcript.ReadTurn | claude-code-plugin/collector/transcript.go:82-233 | the read loop with its break computes the one-pass reading of the lines for the wanted turn |
| Transcript.IsTyped | claude-code-plugin/collector/transcript.go:58-77 | a user record is a prompt exactly if it is text, or blocks of which none is a tool result and one has a kind |
| TranscriptTurns.LatestTurnIsSuffix | claude-code-plugin/collector/transcript.go:112-134 | the untargeted reading depends only on what follows the last prompt |
| TranscriptTurns.TargetReadsItsTurn | claude-code-plugin/collector/transcript.go:82-145 | reading for a turn is the untargeted reading of that turn cut out; without the turn there is nothing |
| TranscriptTurns.StableUnderGrowth | claude-code-plugin/collector/transcript.go:120-134 | a later prompt and anything after it never change what is read for a turn |
| TranscriptTurns.CapturedTurnStays | claude-code-plugin/collector/transcript.go:82-145 | the turn captured as the latest is the one read for its id later, however the transcript grew |
| TranscriptTurns.OutputIsSumOfLargest | claude-code-plugin/collector/transcript.go:146-166 | output tokens are zero without messages, and otherwise the sum over the latest turn's distinct message ids of the largest output; lines without a prompt count as a turn |
| TranscriptTurns.LargestIsLargest | claude-code-plugin/collector/transcript.go:153-160 | that is the maximum of the outputs reported for the id, and of zero |
| TranscriptMeaning.LatestTurnSays | claude-code-plugin/collector/transcript.go:112-232 | what is read of the latest turn, from its lines: exactly the records that become messages, in order and with their fields, the text, the input tokens and model of the last message that has them, the status and the reason |
| TranscriptMeaning.PromptlessSays | claude-code-plugin/collector/transcript.go:97-232 | the same of lines without a prompt, with a clipped read window held against them |
| TranscriptMeaning.TargetedTurnSays | claude-code-plugin/collector/transcript.go:82-145 | the same of a turn asked for by its id |
| TranscriptMeaning.StatusIff | claude-code-plugin/collector/transcript.go:106-229 | a reading with messages is complete exactly when no line of its turn is malformed, nameless, without content or of unknown content, and the turn has a prompt or nothing was clipped; otherwise partial |
| TranscriptMeaning.TextBlocksAre | claude-code-plugin/collector/transcript.go:186-198 | the texts of a content are those of its text blocks, in order |
| TranscriptTurns.RepeatChangesNothing | claude-code-plugin/collector/transcript.go:167-176 | repeating an assistant record with a UUID later in its turn leaves messages, text, output tokens and status as they were |
| TranscriptCapture.HookInput.ApplyFinalAssistant | claude-code-plugin/collector/transcript_capture.go:43-69 | the snapshot after the hook's final text is taken into account |
| TranscriptCapture.HookInput.Capture | claude-code-plugin/collector/spool.go:186-194 | the snapshot taken when the hook is queued |
| TranscriptCapture.HookInput.RefineCapturedTurn | claude-code-plugin/collector/transcript_capture.go:73-120 | the first reading that confirms the captured turn, or the snapshot with the fallback |
| TranscriptCapture.FinalisedKeeps | claude-code-plugin/collector/transcript_capture.go:43-69 | complete exactly if it was and the final text is present; otherwise a supplied final text is the last message, marked as the hook's, and ends the text; messages and text only grow; one fallback at most |
| TranscriptCapture.CompletenessNeverOverstated | claude-code-plugin/collector/spool.go:231-233 | after queueing and any number of preparations: complete only if the hook's text is the transcript's last message, and one reading found all lines of the turn there and none faulty; one fallback at most; the captured turn stays |
| TranscriptCapture.RefinementReadsCapturedTurn | claude-code-plugin/collector/transcript_capture.go:86-115 | what refinement accepts for a captured turn is that turn cut out of the transcript |
| TranscriptCapture.RefinedIsFirst | claude-code-plugin/collector/transcript_capture.go:86-119 | refinement takes the first reading in which the captured turn ends in the text the hook supplied, and falls back on the hook without one |

## Left out

- Collector.Store.DrainHooks: runs one drain without arrivals in between; hooks arriving during a drain, other processes and crashes at any point are steps of the machine, whose results cover all interleavings.
- ToolUse.RunAccepted: asks that no hook carries the zero time, an absent one is replaced when the hook is queued.
- Collector.Store.EnqueueHook: does not choose the file name; names are any distinct ones, and the order results ask that a session's files become visible in name order.
- HookTransactions.HookTransaction.HandleSessionStart: models the journal mode only, as do all handlers; direct delivery and dead letters outside a transaction are not modelled.
- HookTransactions.HookTransaction.IngestSpans: takes the encoded size of a request as a constant plus the items' sizes and separators.
- SpoolBudget.SpoolDirectory.WriteEnvelope: takes a failing size query to mean that the file is gone, and the limit as fixed; lock timeouts are refusals.
- CanonicalJson.Numbers: rewrites a value and returns it; the update in place of slices and maps is not modelled, nor is decoding or encoding text.
- AuditHash.SameHashIffSameContent: takes SHA-256 of the encoded text as an injective function of what the text says.
- AuditService.Service.AppendBatch: is one atomic transaction on one tenant's rows; what an overlapping re-anchoring does to it is in `AuditRace`.
- AuditRace.RaceIntactIff: takes the appended events as new and able to be hashed, as the record of a re-anchoring always is.
- AuditService.Service.PrepareBatch: takes fresh ids, the clock and redaction as parameters, and a missing metadata map as an empty one.
- AuditService.Service.ReanchorChain: asks that the id of the recording event is new and that the clock is within the supported range.
- CriticalPath.ComputeCriticalPath: uses exact numbers for durations.
- Transcript.ReadTurn: starts from decoded lines; read errors other than the end of the file are not modelled.
- TranscriptCapture.HookInput.RefineCapturedTurn: takes the successive contents of the transcript, up to the deadline, as a parameter.
- The server accepts or refuses a request as a whole; partial acceptance of a batch is not modelled.
- Corrupt or unreadable journal and state files, which stop a drain, appear only as failing steps.
- Attempt counters, error texts, health markers and logging.
- Metadata, capture modes, redaction rules, git information and resource labels of the handlers.
- Locks, fsync, HTTP and retries appear as atomic steps and outcomes.
- Replay of dead letters, the asynchronous outbox and receipts, retention, evidence packs, and live subscriptions.
- Timeline and replay frames, pricing, quotas, billing, authentication and the dashboard.

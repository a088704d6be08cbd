# Models of sdkit

Dafny models of the parts of `sdkit` whose correctness is decided by their own code, with proofs about them.
`dafny verify dfyconfig.toml` checks everything. One module models one component:

- **DependencyGraph, DependencySort, ProviderSelection** — ordering capabilities and providers by what they need.
  The worklist of `sortDependencyItems` (in-degree array, edge table, FIFO queue) is proved against a description of
  its one possible output; validation and the depth-first selection of one provider are proved on top of it.
- **AppLifecycle, RunOutcome** — the application object: register, start, wait, roll back, stop. A run is the log of
  every Register, Start, Stop and Shutdown call, for any outcome of each (a *script* of failures and service exits).
  RunOutcome reads errors and statuses off that log.
- **RememberFlight** — any number of callers filling one cache key, as a machine of atomic steps; the entry may be
  evicted at any time. `Memory.RememberWith` is the code's own path through it.
- **ConfigImports** — recursive imports of configuration files. An import is addressed by its positions in the import
  lists, so that depth-first pre-order is the lexicographic order of addresses.
- **Rounding, Pricing, SettlementMerge** — exact decimal rates, half-up rounding into 64 bits, the normalisation of a
  pricing, and merging settlement reports that may come late or twice.
- **EventStream, EventStandard, PolicyRules, CronSchedule** — reading server-sent events, and where the reader agrees
  with the WHATWG HTML Standard; matching an escaped prefix and counting rules per subject; and reloading a schedule
  only when its signature changed.
- **Middleware, TaskErrors, TaskExecution, TaskOutcome, Submission** — the queue: stage-ordered middlewares and dispatch,
  error trees and their classifiers, one attempt at a task with its events and its record (TaskOutcome says how it ends,
  by the error tree), and submission with a record written ahead of the broker call, by any number of processes that
  may crash between any two calls.
- **ProgressSnapshot** — a snapshot updated event by event, and the snapshots a sink keeps per operation.
- **AccessLog** — a bounded queue drained into batches, up to shutdown.

`Prelude` and `Text` hold what they share (options, results, trimming, splitting, joining, NUL-separated fields).
Calls into code outside a component are parameters: their answers are arbitrary. Where an object is updated in place
the model is a class; its methods are proved against a value-level function, and the theorems are about that function
over all inputs or runs. Names of providers and of capabilities are taken as unique where the source relies on it: the
registry refuses a second one (`core/runtime/registry.go:77`, `core/runtime/registry.go:178`).

## Where the code and its promises part

The code is modelled as it is. Where a promise one could read into it fails, a lemma says exactly when it holds.

- A retried deadline is published as `task.timeout` while the message stays in `retrying`
  (`TaskExecution.BundledEnd`, `TaskExecution.RetriedDeadline`).
- The task store and the state machine disagree on giving up when retries are unlimited, or when an ignored error
  has used them up (`TaskExecution.StoreAgrees`, `TaskExecution.UnlimitedDisagrees`).
- A scheduled task is dispatched from its record, which keeps seconds and a plain retry count: unset retries become
  zero, sub-second durations vanish, and deadline, retention, group, priority, rate-limit key and tracing fall back
  to their defaults (`Submission.ScheduledSettings`).
- Custom currency metadata that renames a currency can make a normalised pricing unacceptable to a second normalisation
  (`Pricing.NormalizedTwice`, `Pricing.RenamedCurrency`).
- A schedule shares its signature with another exactly when it prints two jobs or more, or one job with a NUL
  character (but for a spec that is a single NUL): two printed lines are also one, whose id holds the first of them.
  Reloading such a double is accepted and keeps the jobs installed before (`CronSchedule.SignatureAloneIff`,
  `CronSchedule.ReloadFollowsIff`, `CronSchedule.DoubleIsSkipped`).
- An entry accepted by the access logger can still be written exactly when a goroutine runs or can be started:
  entries pushed after the goroutine returned, and all entries of a logger without a writer, are lost. "Written" means
  handed to the writer's `WriteBatch`: a batch for which that fails is logged and dropped
  (`core/accesslog/logger.go:85-87`). See `AccessLog.WrittenIff`, `AccessLog.LateEntryLost`,
  `AccessLog.NoWriterLoses` and `AccessLog.TwoLosses`.
- The event reader dispatches what section 9.2.6 of the WHATWG HTML Standard says exactly when no block with data is
  left open at the end, and every closed block with data meets two conditions: the last event name it gives, if any, is
  not empty, and the last id it gives has no NUL or, if it gives none, the id carried on from earlier blocks is empty.
  It splits text as section 9.2.5 says exactly when no carriage return stands alone and no byte order mark leads
  (`EventStandard.DispatchedAlikeIff`, `EventStandard.LinesAlikeIff`, `EventStandard.TextDispatchedAlikeIff`; each
  departure in `EventStandard.Departures`, `EventStandard.LoneCrJoins`, `EventStandard.BomHides`).
- The store of submissions is only an interface (`core/queue/task_store.go:24-28`) and is taken to keep one record per
  task id, the latest. It then keeps every accepted task as it was accepted, in every run in which newly drawn ids are
  new, exactly when no id is given to two different tasks, one that the broker would take and one that can be encoded;
  otherwise the later record replaces that of the accepted task (`Submission.RecordsKeptIff`,
  `Submission.SharedIdReplaces`).
- The built-in policy rule key joins five fields with NUL characters: a rule shares its key only with rules that grant
  the same exactly when it holds no NUL itself (`PolicyRules.KeyAloneIff`, `PolicyRules.RuleDouble`).

## Model

| member | source | states |
|---|---|---|
| DependencySort.SortDependencyItems | core/runtime/dependency.go:280-326 | succeeds exactly when the dependencies present among the items are acyclic, and then returns the items in the one order a FIFO worklist can emit: a permutation, dependencies first, served by readiness |
| DependencySort.BuildIndex | core/runtime/dependency.go:285-288 | the name index holds the last item of each name |
| DependencySort.BuildEdges | core/runtime/dependency.go:290-301 | the edge table lists every item's dependents with multiplicity, and the in-degrees count its present dependencies |
| DependencySort.InitialQueue | core/runtime/dependency.go:303-308 | the worklist starts with exactly the items without present dependencies, in index order |
| DependencySort.Release | core/runtime/dependency.go:312-320 | emitting the head keeps every in-degree equal to the dependencies still pending and queues exactly the items that became ready |
| DependencySort.RunWorklist | core/runtime/dependency.go:303-325 | the worklist ends, and has emitted everything exactly when there is no cycle |
| DependencySort.WorklistVerdict | core/runtime/dependency.go:322-325 | with an empty queue, fewer emitted than given means a cycle, and all emitted means none |
| DependencyGraph.StuckHasCycle | core/runtime/dependency.go:322-324 | if every remaining node waits for another remaining one, the graph has a concrete cycle |
| DependencyGraph.LongPathHasCycle | core/runtime/dependency.go:322-324 | a path longer than the number of nodes contains a cycle |
| DependencyGraph.TopologicalAcyclic | core/runtime/dependency.go:310-325 | an order with all dependencies first rules out cycles |
| DependencyGraph.KahnOrderUnique | core/runtime/dependency.go:303-321 | the description of the worklist's output leaves exactly one order |
| DependencyGraph.ChainsAscend | core/runtime/dependency.go:303-321 | whatever a worklist has served so far, also when it will end in a cycle: a later item carries every dependency-chain length of an earlier one |
| DependencyGraph.LevelsAscend | core/runtime/dependency.go:303-321 | so items are served in non-decreasing length of their longest dependency chain |
| DependencyGraph.ServedLevel | core/runtime/dependency.go:303-321 | every served item has a longest chain, no longer than the number of items served before it, even when others lie on a cycle |
| DependencySort.QueueSpansTwoLevels | core/runtime/dependency.go:303-321 | in every state of the worklist, cyclic or not, its queue is sorted by level and spans at most two adjacent levels, and nothing emitted lies above its head |
| DependencySort.ProgressServes | core/runtime/dependency.go:303-321 | in every state of the worklist the emitted items and then the queued ones form a served sequence, and the queued ones need only emitted ones |
| DependencyGraph.LevelExists | core/runtime/dependency.go:303-321 | in an acyclic graph every item has a longest chain, shorter than the number of items |
| ProviderSelection.ValidateDependencyList | core/runtime/dependency.go:226-244 | accepts exactly the lists without a blank, repeated or missing required name, and otherwise reports the first defect |
| ProviderSelection.ValidateAll | core/runtime/dependency.go:190-224 | accepts exactly when every list is valid, and otherwise reports the first bad list's defect |
| ProviderSelection.FilterKeepsGraph | core/runtime/dependency.go:258-272 | dropping dependencies on names outside the list leaves the dependency graph as it is |
| ProviderSelection.SortProvidersNoValidate | core/runtime/dependency.go:258-272 | sorts exactly the acyclic lists |
| ProviderSelection.SortProviders | core/runtime/dependency.go:86-106 | succeeds exactly when all lists are valid and acyclic; otherwise reports the first invalid list, or a cycle |
| ProviderSelection.SortCapabilities | core/runtime/dependency.go:71-84 | the same for capabilities, which may only depend on capabilities |
| ProviderSelection.OrderedByName | core/runtime/dependency.go:303-325 | for unique names the result is a permutation in which every present dependency, required or optional, comes earlier |
| ProviderSelection.OrderedUnique | core/runtime/dependency.go:280-326 | sorting has one possible result |
| ProviderSelection.ResortIdentity | core/runtime/dependency.go:280-326 | sorting a sorted list changes nothing |
| ProviderSelection.Selection.Visit | core/runtime/dependency.go:132-156 | the search ends, marks only what is reachable, leaves its path as it found it, and on error exhibits a real dependency path that ends in a bad list or closes a cycle |
| ProviderSelection.SettledSound | core/runtime/dependency.go:132-159 | what the search settled is closed under provider dependencies, all its lists are valid, and no cycle is reachable |
| ProviderSelection.SettledAcyclic | core/runtime/dependency.go:161-171 | the selected providers are acyclic, so the closing sort cannot fail |
| ProviderSelection.RefutedUnsound | core/runtime/dependency.go:132-159 | a reported path is proof that the selection had to fail |
| ProviderSelection.SelectProvidersForRun | core/runtime/dependency.go:108-171 | selects exactly the providers reachable from the named one, sorted; succeeds exactly when every reachable list is valid and the reachable graph is acyclic |
| ProviderSelection.NeededLists | core/runtime/app.go:235-254 | the lists of a selection are valid within the selection itself |
| ProviderSelection.SelectionRunnable | core/runtime/app.go:250-254 | validating and sorting the selection again succeeds and changes nothing |
| AppLifecycle.App.PrepareRunContext | core/runtime/lifecycle.go:54-74 | a new run forgets the previous one |
| AppLifecycle.App.RegisterCapabilities | core/runtime/app.go:204-212 | registers in order up to the first failure, remembers exactly those that succeeded, and leaves them running and the failed one failed |
| AppLifecycle.App.RegisterProviders | core/runtime/app.go:213-219 | registers in order up to the first failure |
| AppLifecycle.App.RegisterAndStart | core/runtime/app.go:204-220 | the calls, errors and statuses of registering everything and starting, whichever step fails first |
| AppLifecycle.App.StartProviders | core/runtime/lifecycle.go:114-160 | starts in order; on a failed start or a returned service it tears down, and what was started together with what is still to be torn down is the same in every outcome |
| AppLifecycle.App.RollBack | core/runtime/lifecycle.go:136-148 | stops what was started, the failed provider first, and keeps its failed status |
| AppLifecycle.App.WaitServiceProviders | core/runtime/lifecycle.go:162-189 | when a service returns or the context ends, everything is stopped once; a service's own exit outlives its stop status |
| AppLifecycle.App.StopProviders | core/runtime/lifecycle.go:191-210 | calls Stop on every given provider in reverse, whatever fails, and collects every failure |
| AppLifecycle.App.ShutdownCapabilities | core/runtime/lifecycle.go:221-237 | calls Shutdown on every given capability in reverse, whatever fails |
| AppLifecycle.App.Stop | core/runtime/lifecycle.go:12-52 | performs exactly the pending teardown, once; a second Stop does nothing |
| AppLifecycle.RollbackVerdict | core/runtime/lifecycle.go:136-148 | in the rollback branch, errors and statuses are those the outcome of the run determines |
| AppLifecycle.StartedVerdict | core/runtime/lifecycle.go:114-189 | in the other branches as well |
| AppLifecycle.App.RunAllProviders | core/runtime/app.go:179-221 | the calls made and still pending, the errors reported and still to be reported, and the statuses of providers and capabilities are those of a full run over the sorted lists; when they cannot be sorted, no calls, the sorting verdict and failed statuses |
| AppLifecycle.App.RunProvider | core/runtime/app.go:223-273 | the same for the providers one provider needs; an unknown one changes nothing |
| RunOutcome.RunAllProviders | core/runtime/execute.go:42-48 | run followed by Stop leaves nothing pending; its errors tell what happened (as RunTells says), and every provider and capability is left in the status that the calls to it say |
| RunOutcome.RunProvider | core/runtime/execute.go:34-40 | the same for the providers one provider needs; an unknown one is reported, and only what was pending is torn down |
| RunOutcome.RunTells | core/runtime/lifecycle.go:114-210 | over the calls made and those that fail: a failed registration or job start is the first error; every failing call is reported, in order and once, but for the stops of a rollback and services that are not waited for; a service is reported as exited, or the context as done, exactly when that ended the run |
| RunOutcome.FullTells | core/runtime/lifecycle.go:114-210 | so for every list of capabilities and providers, whatever fails and whichever service returns |
| RunOutcome.RunPhases | core/runtime/app.go:204-220 | each phase makes its calls in sorted order up to the first failure that ends it (the Start of a service ends nothing), and only after the phases before went well |
| RunOutcome.RunLeaves | core/runtime/lifecycle.go:114-210 | a provider is left failed exactly if its registration, its start as a job or its stop failed, or its exit ended the run; else stopped, or booting if it never started |
| RunOutcome.RunLeavesCapabilities | core/runtime/lifecycle.go:221-237 | a capability is left failed exactly if its registration or its shutdown failed |
| AppLifecycle.FullLogParts | core/runtime/app.go:204-220 | a full run falls into five phases, registrations of both kinds, starts, stops and shutdowns |
| AppLifecycle.TeardownMirrorsStart | core/runtime/lifecycle.go:12-52 | for every outcome, the stops are the starts in exact reverse, each once; the shutdowns are the successful registrations in exact reverse, each once; all stops precede all shutdowns |
| AppLifecycle.DependentsGoDownFirst | core/runtime/lifecycle.go:191-237 | nothing starts before what it depends on, and nothing goes down before what depends on it: between providers, between capabilities, and for a capability that a provider needs |
| RememberFlight.InvStep | core/cache/remember.go:27-64 | every step of every caller keeps the flight table, the account of loads and stores, and the origin of every result |
| RememberFlight.RunKeepsInv | core/cache/remember.go:27-64 | so does every run |
| RememberFlight.LoadedOncePerEntry | core/cache/remember.go:36-54 | for any number of callers: one caller in flight at most, and no more successful loads than one plus the failed stores and evictions |
| RememberFlight.OneValueForAll | core/cache/remember.go:27-64 | without evictions all successful callers return one value, and the loader produced it |
| RememberFlight.SomeoneCanMove | core/cache/remember.go:36-54 | nobody waits forever: until all are done some caller can move |
| RememberFlight.RunsEnd | core/cache/remember.go:27-64 | every run ends: each caller takes at most six steps, and after six it is done |
| RememberFlight.Memory.Fly | core/cache/remember.go:36-54 | the leader's check, load and store are a run of the machine |
| RememberFlight.Memory.RememberWith | core/cache/remember.go:27-64 | one call is a run of the machine from start to end, and succeeds exactly when the value was cached or was loaded and stored |
| ConfigImports.Loader.MergeImports | core/config/config.go:62-75 | succeeds exactly when every reachable import can be read and resolved and no file reaches itself; then every reachable import was merged once per place, in depth-first pre-order |
| ConfigImports.Loader.MergeImportFiles | core/config/config.go:77-123 | terminates on every finite graph, restores the active set on every return, has merged exactly the imports before the point where it stopped, and reports a real chain |
| ConfigImports.Loader.MergeChild | core/config/config.go:98-120 | the same below one import, with its identity active meanwhile |
| ConfigImports.Loader.MergeOne | core/config/config.go:98-110 | lays the file's leaves over the merged ones |
| ConfigImports.ImportLeads | core/config/config.go:77-98 | which items lead to a file, and to which: those not blank of the entry's list or of a readable file's, resolved against their parent |
| ConfigImports.JustifiedUnsound | core/config/config.go:87-106 | a reported chain shows that the imports are unsound |
| ConfigImports.CycleFound | core/config/config.go:92-94 | an active identity is that of a file on the chain, so a reported cycle is a real one |
| ConfigImports.LastDefinerWins | core/config/config.go:107-121 | of all merged files the last that has a value for a key decides it |
| ConfigImports.UndefinedKeepsBase | core/config/config.go:62-75 | a key no import defines keeps the entry file's value |
| Rounding.RoundHalfUp | core/payment/pricing.go:213-228 | quotient and remainder give an integer q with 2qd <= 2n + d < 2(q + 1)d |
| Rounding.NearestUnique | core/payment/pricing.go:213-228 | there is only one such integer |
| Rounding.RatioDecides | core/payment/pricing.go:146-153 | only the ratio matters, however the fraction is reduced |
| Rounding.Monotone | core/payment/pricing.go:213-228 | rounding is monotone |
| Rounding.AllSurviveIffFiner | core/payment/pricing.go:146-153 | every amount survives conversion there and back exactly when a minor unit paid is worth at least one settled |
| Pricing.DigitsArePlaces | core/payment/pricing.go:186-196 | digits are read in base ten, by their places |
| Pricing.Pow10Tells | core/payment/pricing.go:201-211 | powers of ten multiply as they should |
| Pricing.ParseMeaning | core/payment/pricing.go:161-199 | a decimal, with optional plus sign and outer space, parses to exactly the number it writes, if that is positive |
| Pricing.OnlyNumeralsParse | core/payment/pricing.go:161-199 | nothing else parses |
| Pricing.RoundHalfUpRatToInt64 | core/payment/pricing.go:213-228 | returns the nearest integer, and fails exactly on a negative value or when the result exceeds int64 |
| Pricing.CalculateSettleAmount | core/payment/pricing.go:129-159 | the settle amount is the nearest integer to the exact conversion, refused exactly when the rate or its direction is wrong, or the amount is zero or overflows |
| Pricing.SettlesIff | core/payment/pricing.go:129-159 | within one currency the amount stays; otherwise it settles exactly if the rate runs between the two currencies, writes a positive number, and some positive 64-bit amount is nearest; which is then the result |
| Pricing.RateWritingIrrelevant | core/payment/pricing.go:141-153 | the settle amount does not depend on how the rate is written |
| Pricing.PayMoreSettleMore | core/payment/pricing.go:146-158 | paying more never settles less; a verdict changes only by ceasing to round to nothing or by starting to overflow |
| Pricing.ReciprocalRatesReturn | core/payment/pricing.go:146-158 | converting there and back at exactly reciprocal rates returns the amount, when a minor unit paid is worth at least one settled |
| Pricing.NormalizePricing | core/payment/pricing.go:27-106 | field by field the normal form, or the first error in the order of the checks |
| Pricing.NormalizedIff | core/payment/pricing.go:27-106 | exactly which pricings are accepted, and every field of the result; a settle amount different from the calculated one only where the policy allows it |
| Pricing.MismatchIff | core/payment/pricing.go:77-90 | a settle amount is refused as a mismatch exactly when a policy that allows explicit ones would accept the pricing, fee aside |
| Pricing.SettleCurrencyTells | core/payment/pricing.go:38-42 | the default settle currency counts only where none is named |
| Pricing.ListedMeans | core/payment/pricing.go:108-127 | custom currency metadata comes before the built-in and must have a usable scale; its code is its own, or the one looked up |
| Pricing.NormalizedTwice | core/payment/pricing.go:27-106 | normalising again changes nothing exactly when the settle amount was given or the settle currency's metadata carries its own code |
| Pricing.RenamedCurrency | core/payment/pricing.go:108-127 | a concrete policy and pricing for which it does |
| SettlementMerge.MergeProviderSettlement | core/payment/settlement_merge.go:5-46 | the result is the merge of both reports as values; neither object is modified, as the result is one of them or a new one |
| SettlementMerge.MergeTells | core/payment/settlement_merge.go:5-46 | a later update replaces what it reports; any other, undated ones included, only fills what is unknown; it is refused exactly if dated earlier or if the amount would carry another currency |
| SettlementMerge.KnowledgeGrows | core/payment/settlement_merge.go:5-46 | over any sequence of merges the update time never decreases, no known fact becomes unknown, and amounts stay in the settlement currency |
| SettlementMerge.MergedTwice | core/payment/settlement_merge.go:5-46 | merging the same update twice is merging it once |
| SettlementMerge.LateDeliveryIgnored | core/payment/settlement_merge.go:15-18 | an update older than what is known when it arrives might as well not have arrived, whatever is merged after it |
| SettlementMerge.LastWriterWins | core/payment/settlement_merge.go:19-41 | of updates in order, the last to report a fact decides it |
| EventStream.ConsumeArchiveJobEvents | pkg/sdingest/archive.go:366-434 | the reading loop delivers and ends as the line-by-line reader of the text's lines does |
| EventStream.ReadsWhatWasWritten | pkg/sdingest/archive.go:366-434 | reading the wire form of any events, with either line ending, delivers exactly those events, through the first complete one, or ends in unexpected EOF |
| EventStream.ExpectedDelivers | pkg/sdingest/archive.go:375-397 | what is delivered is a prefix, cut short exactly at the first event the handler refuses or that is named complete |
| EventStream.IgnorableLines | pkg/sdingest/archive.go:400-416 | comment lines and unknown fields inserted anywhere change nothing |
| EventStream.ReadEvent | pkg/sdingest/archive.go:375-416 | the lines of one event, data split over any number of them, yield that event |
| EventStream.ScanWritten | pkg/sdingest/archive.go:371-392 | splitting the written text gives back its lines |
| EventStandard.StandardIsBlocks | pkg/sdingest/archive.go:373-417 | the standard's line-by-line rule, told block by block: the id outlives a dispatch, an empty name is message |
| EventStandard.FeedIsBlocks | pkg/sdingest/archive.go:373-417 | the reader's rule, told block by block: name and id are those of the block alone |
| EventStandard.ReaderConsumes | pkg/sdingest/archive.go:375-433 | for any decoder and handler, delivery and ending are those of the dispatched blocks, one left open included |
| EventStandard.ReadFailureConsumes | pkg/sdingest/archive.go:418-423 | when reading fails the open block is not dispatched, what was dispatched stands, and the failure or the end of the context is reported |
| EventStandard.DispatchedAlikeIff | pkg/sdingest/archive.go:373-433 | the reader dispatches exactly the standard's events if and only if no block with data is left open, and each closed one gives no empty name last and, as its last id, one without NUL, or none when the carried id is empty |
| EventStandard.LinesAlikeIff | pkg/sdingest/archive.go:371-392 | text is split into the standard's lines if and only if it has no lone carriage return and no leading byte order mark |
| EventStandard.TextDispatchedAlikeIff | pkg/sdingest/archive.go:366-433 | from text that both split alike, the same events are dispatched if and only if that condition holds |
| EventStandard.DeliveredAlike | pkg/sdingest/archive.go:366-434 | text that both split alike, in conforming blocks, gives every client what the standard's dispatches give it |
| EventStandard.Departures | pkg/sdingest/archive.go:373-433 | each of the four kinds of block is dispatched differently, whatever its data |
| EventStandard.LoneCrJoins | pkg/sdingest/archive.go:391-392 | two data lines with a lone carriage return between them are one to the reader |
| EventStandard.BomHides | pkg/sdingest/archive.go:391-416 | a leading byte order mark hides the first field from the reader |
| PolicyRules.EscapeIsEach | core/casbin/rule_store.go:274-279 | the three successive replacements escape every special character once |
| PolicyRules.PrefixFilterIsPrefix | core/casbin/rule_store.go:235-237 | the LIKE filter matches a value exactly when it starts with the prefix, whatever the prefix contains |
| PolicyRules.KeysTellApart | core/casbin/rule_store.go:253-255 | a rule without NUL shares its key exactly with the rules that grant the same |
| PolicyRules.RuleDouble | core/casbin/rule_store.go:253-255 | a rule with a NUL shares its key with a rule of the same subject that grants something else |
| PolicyRules.KeyAloneIff | core/casbin/rule_store.go:253-255 | only rules that grant the same share a rule's key if and only if it holds no NUL |
| PolicyRules.CountKeys | core/casbin/rule_store.go:73-98 | counts the distinct non-empty keys of each subject |
| PolicyRules.PolicyRuleCountsByV0 | core/casbin/rule_store.go:73-98 | the same with the given key function or the built-in one |
| PolicyRules.KeysArePermissions | core/casbin/rule_store.go:73-98 | with the built-in key the count is the number of different permissions, when at most one of the subject's permissions holds a NUL |
| CronSchedule.JobsSignature | core/crontab/robfigcron/scheduler.go:95-116 | prints the nine fields of every enabled job with a spec, in order |
| CronSchedule.LineTellsApart | core/crontab/robfigcron/scheduler.go:101-113 | a printed line is read back uniquely in front of anything that follows |
| CronSchedule.SignatureTellsApart | core/crontab/robfigcron/scheduler.go:95-116 | without NUL, signatures are equal exactly when the printed fields of all enabled jobs are |
| CronSchedule.Double | core/crontab/robfigcron/scheduler.go:101-113 | every printed job with a NUL outside its spec has a double: another job with the same line, spec and timeout |
| CronSchedule.SpecDouble | core/crontab/robfigcron/scheduler.go:101-113 | so has every job whose spec holds a NUL and anything else |
| CronSchedule.DoubleInPlace | core/crontab/robfigcron/scheduler.go:95-116 | a double of one job makes a double of its schedule, with the same specs and timeouts |
| CronSchedule.TwoLinesAreOne | core/crontab/robfigcron/scheduler.go:101-113 | any two lines are also one line, with the first in front of the id |
| CronSchedule.AloneIff | core/crontab/robfigcron/scheduler.go:95-116 | no other printed schedule has the same signature if and only if nothing is printed, or one job without NUL (or with a single NUL for a spec) |
| CronSchedule.SignatureAloneIff | core/crontab/robfigcron/scheduler.go:95-116 | the same condition, on the printed jobs, for schedules of jobs |
| CronSchedule.DoubleIsSkipped | core/crontab/robfigcron/scheduler.go:57-60 | otherwise some schedule that parses and prints differently is accepted on reload and changes nothing |
| CronSchedule.ReloadFollowsIff | core/crontab/robfigcron/scheduler.go:53-93 | with a schedule installed, every reload that parses is followed if and only if that schedule prints at most one job without NUL, given that specs with NUL do not parse |
| CronSchedule.Scheduler.Start | core/crontab/robfigcron/scheduler.go:30-39 | runs the installed engine, if any |
| CronSchedule.Scheduler.Stop | core/crontab/robfigcron/scheduler.go:41-51 | stops it |
| CronSchedule.Scheduler.Reload | core/crontab/robfigcron/scheduler.go:53-93 | accepts exactly an unchanged signature or schedules that all parse; keeps the running flag; a failure changes nothing; a replaced engine is stopped |
| CronSchedule.InstalledIff | core/crontab/robfigcron/scheduler.go:53-93 | something is installed exactly once a schedule has parsed |
| CronSchedule.RunsIff | core/crontab/robfigcron/scheduler.go:30-93 | the scheduler runs exactly when some Start had a parsed schedule before it and no Stop came after it, whatever was reloaded |
| CronSchedule.InstalledIsLastGood | core/crontab/robfigcron/scheduler.go:30-93 | after any calls, the installed jobs have the printed fields of the last reload whose schedules all parse |
| CronSchedule.AcceptedParses | core/crontab/robfigcron/scheduler.go:57-77 | a reload is accepted exactly when its schedules parse, also when it is skipped as unchanged |
| Middleware.ChainRuntime | core/queue/middleware_stage.go:71-80 | wrapping from last to first nests the middlewares in order, leaving out nil ones |
| Middleware.SortRuntimeMiddlewares | core/queue/middleware_stage.go:102-106 | sorts in place by stage, keeping the order within a stage |
| Middleware.NormalizeRuntimeMiddlewares | core/queue/middleware_stage.go:82-91 | drops nil middlewares and sorts the rest |
| Middleware.NormalizedArranges | core/queue/middleware_stage.go:82-91 | the result ascends by stage and holds in each stage exactly the given middlewares in the given order |
| Middleware.DeterminedByStages | core/queue/middleware_stage.go:102-106 | which leaves only one result |
| Middleware.NormalizedTwice | core/queue/orchestrator.go:87 | normalising a second time, in Execute, changes nothing |
| Middleware.Nesting | core/queue/middleware_stage.go:71-80 | pass-through middlewares are entered in order and left in exact reverse around the handler, whatever the handler does |
| Middleware.DispatchOrder | core/queue/dispatcher.go:132-165 | when all middlewares pass through, the answer of a dispatch is what the registered handler does between their entries and their exits in reverse; entries ascend by stage, and within a stage come those used, those given, then the added timeout, each as registered |
| Middleware.HasRuntimeMiddlewareStage | core/queue/middleware_stage.go:108-115 | finds whether a stage has a middleware |
| Middleware.Dispatcher.UseRuntime | core/queue/dispatcher.go:47-59 | adds global middlewares after those used before |
| Middleware.Dispatcher.Register | core/queue/dispatcher.go:92-124 | replaces the pattern's registration, refusing an empty pattern and an unusable chain; adds a timeout when one is set and none was given |
| Middleware.Dispatcher.Dispatch | core/queue/dispatcher.go:132-165 | by cases on pattern and message: the missing pattern, the missing handler, or the registered handler inside exactly the used and given middlewares in order of stage, with the type the handler sees |
| Middleware.NormalizedLinesUp | core/queue/dispatcher.go:213-227 | normalising the used and the route's middlewares lines them up so |
| TaskErrors.AsIsFirst | core/queue/error.go:160-169 | the classifiers look at the first runtime error in depth-first pre-order and at no other |
| TaskErrors.IsAnywhere | core/queue/error.go:93-103 | the rate-limit checks look anywhere in the tree |
| TaskErrors.FirstDecides | core/queue/error.go:171-194 | errors are classified alike when the runtime errors visited first in them differ only in what they wrap |
| TaskErrors.NilHides | core/queue/error.go:160-169 | there is no runtime error to classify exactly when none is visited or a nil pointer is visited first |
| TaskOutcome.Classified | core/queue/error.go:93-194 | each classifier by the nodes of the tree: those of the runtime error visited first, or a limit or deadline anywhere |
| TaskExecution.TransitionTaskState | core/queue/state.go:40-77 | moves state and runtime state together, exactly when the transition is allowed |
| TaskExecution.Orchestrator.Execute | core/queue/orchestrator.go:65-101 | the new state, the returned error and the complete sequence of events, observer calls and hook calls |
| TaskExecution.Orchestrator.FinishFailure | core/queue/orchestrator.go:103-128 | the state and events of a failed attempt, by the classification of its error |
| TaskExecution.Orchestrator.RunBeforeProcess | core/queue/dispatcher.go:255-265 | asks the hooks in order up to the first objection |
| TaskExecution.AttemptEnds | core/queue/orchestrator.go:65-135 | a live message whose state is left alone ends in the state its end event names: success exactly without an error, dead letter exactly for dead-letter and fatal errors and for exhausted retries that are neither limited nor ignored |
| TaskOutcome.AttemptClassified | core/queue/orchestrator.go:65-135 | a live message whose state is left alone, by what its error tree holds: the exact condition for each of the four final states, and everything that is told, in order; a retry is observed exactly when the message is left retrying |
| TaskOutcome.BegunTells | core/queue/orchestrator.go:73-80 | an attempt sets a live message running and leaves any other as it is, but for showing its state where none was shown |
| TaskOutcome.TraceTells | core/queue/orchestrator.go:65-128 | for any message: exactly which events, observer calls and hook calls are made, each once, in order of phase and hook |
| TaskOutcome.EndIs | core/queue/orchestrator.go:103-135 | for any message: which end is published, by its state and what the error tree holds |
| TaskOutcome.OutcomeIs | core/queue/dispatcher.go:255-265 | an attempt ends with the error of the first hook that objects, or else the handler's |
| TaskExecution.EndMatches | core/queue/orchestrator.go:103-128 | in general, exactly which states left by a handler let the end event name the final state; otherwise the state stays |
| TaskExecution.RuntimeInStep | core/queue/state.go:33-42 | the runtime state always equals the state of a message that arrived live |
| TaskExecution.OneStartOneEnd | core/queue/orchestrator.go:82-128 | every attempt publishes one start and one matching end; observers hear one start, a verdict on an error, one finish |
| TaskExecution.DeadLetterMiddleware | core/queue/runtime/middleware/deadletter.go:10-44 | pushes fatal or exhausted errors that are not ignored and marks the message dead-lettered |
| TaskExecution.RetryMiddleware | core/queue/runtime/middleware/retry.go:9-52 | leaves final errors alone, dead-letters exhausted ones, and marks the rest as retrying when its strategy agrees |
| TaskOutcome.DeadLetterTells | core/queue/runtime/middleware/deadletter.go:10-44 | exactly when a message is given up, and which error results |
| TaskOutcome.RetryTells | core/queue/runtime/middleware/retry.go:9-52 | exactly when another attempt is scheduled, when a message is given up, and which error results |
| TaskExecution.BundledEnd | core/queue/orchestrator.go:103-128 | with either or both of these middlewares the end event names the final state, except exactly when a retry was scheduled for an exceeded deadline |
| TaskExecution.RetriedDeadline | core/queue/orchestrator.go:111-113 | a concrete message for which it does not |
| TaskExecution.FinishStoredTaskRun | core/queue/task_store.go:346-390 | the writes attempted, in order, up to the first that fails |
| TaskOutcome.StoredTells | core/queue/task_store.go:346-390 | the recorded status, by error tree and retry count, and the three writes |
| TaskOutcome.AttemptedTells | core/queue/task_store.go:371-391 | each write is attempted exactly if none before it failed |
| TaskExecution.StoreAgrees | core/queue/task_store.go:350-360 | a dead-lettered attempt is recorded as failed; the converse holds exactly when the retry limit is not negative and the error not ignored, or the limit plays no part |
| TaskExecution.UnlimitedDisagrees | core/queue/retry.go:19-24 | a concrete message recorded as failed and not dead-lettered |
| TaskExecution.LifetimeStays | core/queue/state.go:44-66 | over any number of deliveries success and dead letter are final, and failed only becomes dead letter |
| Submission.ApplyOptions | core/queue/option.go:151-159 | applies every option that is not nil, in order, to the defaults |
| Submission.EffectiveTells | core/queue/runtime_instance.go:386-392 | the task's own queue and id count before those of the options |
| Submission.OptionsOfRecord | core/queue/runtime_instance.go:566-582 | the options rebuilt from a record |
| Submission.ScheduledSettings | core/queue/runtime_instance.go:492-582 | what dispatching a scheduled record keeps of the task's options: id and queue always, a set non-negative retry count, durations exactly when they are whole non-negative seconds; and what falls back to defaults |
| Submission.SubmitMatches | core/queue/runtime_instance.go:428-456 | the record written first has the id, queue, type and payload the broker will take the task for, under its own id or a new one |
| Submission.RecordMatches | core/queue/runtime_instance.go:671-690 | so has the record a dispatch starts from |
| Submission.AcceptedMatches | core/queue/runtime_instance.go:458-490 | and the record of an accepted task |
| Submission.ActOk | core/queue/runtime_instance.go:264-289 | every step of every process keeps this |
| Submission.EveryRunRecordsFirst | core/queue/runtime_instance.go:264-289 | in every interleaving with crashes anywhere and lost answers, every task the broker accepted was recorded earlier with the same id, queue, type and payload, and the store has a record of that id |
| Submission.RecordsKept | core/queue/runtime_instance.go:264-289 | when every id is given to one task only, and drawn ids are new, the stored record of every accepted task has its id, queue, type and payload |
| Submission.SharedIdReplaces | core/queue/runtime_instance.go:439-455 | for any two tasks under one id, the first of which the broker would take, a run in which the second replaces the record of the accepted first |
| Submission.RecordsKeptIff | core/queue/runtime_instance.go:264-289 | so every run keeps the records of accepted tasks if and only if every id is given to one task only; a store that schedules is taken to have a poller |
| Submission.FailureLeaves | core/queue/task_store.go:243-251 | a broker failure leaves the record as it was, or the same task marked as failed to submit |
| Submission.Instance.RecordScheduled | core/queue/runtime_instance.go:379-426 | schedules exactly the tasks that the machine schedules: those due later (SubmitTells) |
| Submission.Instance.RecordSubmitting | core/queue/runtime_instance.go:428-456 | writes the record ahead of the submission |
| Submission.Instance.Conclude | core/queue/runtime_instance.go:279-288 | records a dispatch or its failure, whichever it was |
| Submission.Instance.Enqueue | core/queue/runtime_instance.go:264-289 | one call is the machine's run of one process; a task due later on a scheduling store is only recorded, for the time asked; any other is recorded, then sent, and accepted if the broker accepts; success, log, and the stored record with its state in every case |
| Submission.SubmitTells | core/queue/runtime_instance.go:379-456 | a task is put off exactly if the store schedules and its time has not come, or it has a delay and no time; either way its record says the same as the broker would take it for |
| Submission.EnqueueTells | core/queue/runtime_instance.go:264-289 | the machine's run of one process does this for any answers of store and broker |
| Submission.AcceptedTells | core/queue/runtime_instance.go:458-490 | an accepted task's record keeps its identity and automatic retries, has the time and retry limit asked for or else the broker's, and takes the broker's state, where a pending task not yet due is scheduled |
| Submission.DispatchTells | core/queue/runtime_instance.go:671-690 | a poller sends the recorded task; the record then says submit_failed unless acceptance was heard of |
| Submission.Instance.DispatchScheduledTask | core/queue/runtime_instance.go:671-690 | one dispatch is three steps of the machine |
| Submission.Instance.DispatchScheduledTasks | core/queue/runtime_instance.go:661-669 | one round of the poller is the machine's run over all claimed records |
| Submission.ClaimTells | core/queue/task_store.go:30-33 | a claim marks the records asked for and no others, and hands over those that exist, in order |
| Submission.PollTells | core/queue/runtime_instance.go:661-669 | one round sends every claimed task, in order, whatever becomes of those before it: exactly those are accepted that the broker does not refuse |
| ProgressSnapshot.Progress.Apply | core/reporter/progress.go:166-211 | the new snapshot, field by field |
| ProgressSnapshot.Progress.ApplyStep | core/reporter/progress.go:213-230 | replaces the first step with the key or appends a new one |
| ProgressSnapshot.SnapshotSummarizes | core/reporter/progress.go:166-230 | after any history: each field is the last one given; one step per key, in first-seen order, as last reported; terminal exactly if some event was; the last events up to the limit |
| ProgressSnapshot.OneSummary | core/reporter/progress.go:166-230 | which determines the snapshot completely |
| ProgressSnapshot.StepsMore | core/reporter/progress.go:213-230 | one more report keeps the step table right |
| ProgressSnapshot.StepsShow | core/reporter/progress.go:213-230 | a step shows every field of the last event that reports its key, and each reported key has exactly one step |
| ProgressSnapshot.Sink.Handle | core/reporter/progress.go:124-149 | the store keeps for every key the snapshot of that key's events, with the lifetime its terminal flag asks for |
| ProgressSnapshot.Sink.CleanUp | core/reporter/progress.go:151-164 | forgets the operations that have ended and no others |
| ProgressSnapshot.SinceTells | core/reporter/progress.go:124-164 | which events are behind a key's snapshot: those handled and not cleaned up since, stamped where they had no time |
| ProgressSnapshot.LifetimeTells | core/reporter/progress.go:124-149 | the snapshot is kept for the terminal lifetime exactly if one of its events ended the operation |
| AccessLog.Logger.Push | core/accesslog/logger.go:51-60 | takes an entry unless the queue is full |
| AccessLog.Logger.Flush | core/accesslog/logger.go:78-88 | hands the batch to the writer, never an empty one |
| AccessLog.Logger.Proceed | core/accesslog/logger.go:90-112 | one branch of the loop or of the shutdown drain |
| AccessLog.Logger.Run | core/accesslog/logger.go:49-113 | any interleaving of callers and the goroutine is a run of the machine |
| AccessLog.EveryRunConserves | core/accesslog/logger.go:49-113 | in every run the accepted entries are the written batches, then the batch, then the queue, in order; no write is empty, and only the last, at shutdown, may exceed the batch size |
| AccessLog.WritesWhen | core/accesslog/logger.go:78-112 | a batch is written exactly when a tick finds one, when receiving fills it, or when draining ends with one |
| AccessLog.LoopCanWrite | core/accesslog/logger.go:104-112 | while the goroutine loops, receiving and one tick write everything accepted, without a shutdown |
| AccessLog.ReturnWritesAll | core/accesslog/logger.go:92-103 | when the goroutine returns, everything accepted so far has been written |
| AccessLog.IdledWritesNothing | core/accesslog/logger.go:49-66 | where no goroutine runs or can be started any more, nothing more is written and whatever is accepted stays queued |
| AccessLog.WrittenIff | core/accesslog/logger.go:49-113 | everything accepted can still be written if and only if it already is, or a goroutine runs or can be started |
| AccessLog.LateEntryLost | core/accesslog/logger.go:51-60 | after any run that returned, an entry is accepted while there is room and no later run writes it |
| AccessLog.NoWriterLoses | core/accesslog/logger.go:63-66 | without a writer no run writes anything, so every accepted entry is lost |
| AccessLog.TwoLosses | core/accesslog/logger.go:49-66 | one concrete run of each kind |
| AccessLog.WritesGrow | core/accesslog/logger.go:78-88 | nothing written is taken back or reordered |
| AccessLog.ShutdownReturns | core/accesslog/logger.go:92-103 | from any running state some run without pushes drains the queue and returns, in as many rounds as there are queued entries and a constant more |
| AccessLog.EveryDrainEnds | core/accesslog/logger.go:92-103 | every drain without pushes takes one step for each queued entry and one more, after which it has returned with an empty queue |

## Left out

- Drivers behind interfaces (HTTP, Redis, NATS, databases, Docker, mail, payment providers): the broker, the stores, the loader and the handlers are arbitrary answers; SQL appears only as the LIKE predicate.
- Tracing, logging, correlation headers, record timestamps, worker ids and delays in seconds: not part of any claim; ids and times are parameters.
- A Stop that runs beside the start sequence, stop timeouts, signals, and services that never return: "Stop was called" is modelled, not "Stop finished".
- AppLifecycle.App.RunAllProviders: does not model capabilities that providers bring along at run time (`core/runtime/provider_capability.go:5-18`), because the capability list of a run is fixed when it begins.
- AppLifecycle.App.RunProvider: does not model extra capability names contributed by other providers, because the capability list is fixed.
- RememberFlight: the JSON codec is the identity, a loader neither panics nor returns another type, and an entry expires only as an eviction.
- ConfigImports: keys are flat leaves, so the environment overlay and nested maps are not modelled; a file's content does not change while it is loaded.
- Pricing.NormalizeCurrency: upper-cases ASCII letters only.
- Pricing: checks of a cancelled context, and the fee amount as a shared pointer; it is a value here.
- SettlementMerge: the boxes that optional amounts point to are immutable, as nothing in the source writes through them.
- EventStandard.DeliveredAlike: does not say that text which conforms less is delivered differently, because it need not be: a byte order mark may hide a comment, and nothing after a complete event is delivered.
- EventStream: the scanner's limit on line length and the HTTP exchange around it; text is characters, not bytes. The standard's retry field sets a reconnection time, which neither side of the comparison has.
- PolicyRules.PrefixFilterIsPrefix: assumes a collation that compares character by character.
- CronSchedule: how the engine fires jobs, and job fields that the signature does not print.
- Middleware: the reflection that turns handlers into functions; its verdict is a parameter. A panic is not modelled.
- TaskExecution: a handler or hook that assigns the state directly instead of through a transition, a panic, several publishers or observers, and the sharing of a runtime context between messages.
- Submission: deleting and requeueing records, automatic retries, batches, a store without submissions, and the rounding of very long durations through floating point.
- ProgressSnapshot: the expiry of stored snapshots, errors of the store, and details other than as printed text.
- AccessLog: pushes that arrive during a write are ordered after its start.
- Registries, option setters, configuration defaults, the payment status table and the fallback loops of mail and SMS: finite tables and simple loops that would only add easy members.

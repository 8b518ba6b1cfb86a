# Verification model of simsys-metrics

simsys-metrics is one Prometheus metrics contract with a Node, a Python and a Go
implementation. This project models the parts of it that are hard to get right
and proves what they promise: installs that must undo themselves on failure,
ownership of shared samples, route labels of bounded cardinality, a smoothed
progress rate, and pollers, scrapes and jobs that interleave.

Code that changes things step by step is modelled by classes and methods whose
contracts tie the new state to a function of the old one; the theorems are lemmas
about those functions, by induction over whole runs. Functions that only compute
are functions here too.

| file | models |
|---|---|
| `Text.dfy`, `Wrappers.dfy` | trimming, split and join; an optional value |
| `PercentDecoding.dfy`, `Patterns.dfy`, `RouteLabels.dfy` | `decodeURIComponent`; the regular expressions; `bucketRoute` and `classifySegment` |
| `HttpLabels.dfy` | `statusBucket`, `normalizeMethod` and the samples they label |
| `RouteCap.dfy` | `capRoute` and the series bound |
| `BuildInfo.dfy`, `BuildInfoOwnership.dfy` | the build_info ledger: Node's joined keys, Python's locked steps |
| `ProcessCollector.dfy` | the Node collector's label and CPU counter |
| `NodeProcess.dfy` | the process-wide half of every Node install |
| `Pending.dfy` | the listeners waiting on responses |
| `Express.dfy`, `Hono.dfy`, `NextInstall.dfy` | the three Node adapters |
| `PyCollector.dfy`, `PyProcess.dfy` | the Python collector singleton; the process-wide half of a Python install |
| `Flask.dfy`, `FastApi.dfy`, `PyInstalls.dfy` | the Python adapters; whole runs over any number of their apps in one process |
| `Progress.dfy`, `GoProgress.dfy` | the progress tracker; the Go one under concurrency |
| `Pool.dfy`, `Jobs.dfy` | overlapping pool ticks; wrapped jobs |

Conventions. An install attempt is given the number of steps (`done`) that
complete before one throws, so that every step boundary inside its try block is a
point of failure, also where the next step is a plain assignment, which throws
only on a read-only property. Where a promise does not survive such a failure, its
exact condition says so: Hono's flags and the original emit Next saves. A library
call or helper either completes or fails without effect. Metrics are maps from
label tuples to values. Times and amounts are exact reals. The clock, CPU
readings, callback results, response statuses and `toUpperCase` are parameters.
`commit`, `metricsPath` and the other options are taken after their defaults have
been applied. The signal that Flask sends on uncaught exceptions holds its
receivers weakly, as the signal library does by default.

Where the code does not keep a promise for all inputs, the exact condition under
which it does is proved:

- Node rollback: `RollbackLeavesExactly` (the default label stays, and so does a
  relabelling's loss of counter values), `UndoneExactly` with the input
  `PriorValueGone`, `RestoreDropsExactly` (an empty service name),
  `KeyUniqueExactly` (NUL inside a label).
- CPU accounting: `BalanceNeedsMonotoneClock`, `OrphanExactly` (metrics dropped
  with a collect pending).
- A consumer who drops a sentinel to install again: `WiredOnceExactly`,
  `FailureClearsExactly` and `DroppedSentinelDoubles` (Express), `RecordsRefine`
  and `RearmedExactly` with the input `LeakedClosureExactly` (Hono),
  `EmitRestoredExactly` (Next).
- An assignment that throws: `WiredAtMostOnceExactly` and `InvStepExactly` (Hono:
  between a registration and its flag, or at the sentinel), `HonestStepExactly`
  and `SentinelLeftSticks` (Next: saving the original after the sentinel).
- Python rollback: `RestoreExactly`, `OutOfOrderExactly` and `ReuserLoses`
  (collector rollbacks out of order), `DoubleSpendExactly`,
  `MiddlewareRestoredExactly`, `MiddlewareLost` and `MiddlewareErasableExactly`
  (FastAPI).
- Labels and rates: `IdempotentExactly`, `EtaZeroExactly`.

Three comments of the source disagree with its code, and the model follows the
code: a service swap on Node drops the prior service's CPU value although the
comment at node/src/process.ts:208-212 calls its accumulator intact, which
`PriorValueGone` shows; the smoothing factor is 1, not 0.63, when the interval
equals the window (simsys_metrics/progress.py:225-227), as `AlphaExactly` states;
and the receiver meant to count Flask's uncaught exceptions
(simsys_metrics/flask.py:167-190) is referred to by nothing but the signal, so it
is gone when install_flask returns, as `ReceiversAreTheirs` states.

## Model

| member | source | states |
|---|---|---|
| Express.FailedInstallsErasable | node/src/adapters/express.ts:58-232 | After any run of attempts on any number of apps, each failing at any step or succeeding, with consumer routes, dropped sentinels, requests and scrapes in between: everything recorded, service, collector label, build_info samples and ownership, router stacks, sentinels and the locals of installed apps equal those of the run without the failed attempts (NUL-free labels). |
| Express.LocalsErasable | node/src/adapters/express.ts:189-196 | Where no sentinel is dropped, the locals of every app are equal too. |
| Express.FailureClearsExactly | node/src/adapters/express.ts:189-196 | A failed attempt never changes the layers of an app, and leaves its locals as they were exactly when it had none. |
| Express.WiredPerSuccess | node/src/adapters/express.ts:128-184 | Over any run, dropped sentinels included, an app's own layers grow by one route and one middleware per successful attempt, in order; a request gets one recorder for each of those with another metrics path; and the consumer's routes all survive. |
| Express.TwoLayersPerSuccess | node/src/adapters/express.ts:137-184 | The number of own layers gained is twice the number of attempts that were neither no-ops nor failures. |
| Express.WiredOnceExactly | node/src/adapters/express.ts:71-86 | After any run, dropped sentinels included, a fresh app is wired once exactly when one attempt has succeeded and it is installed, or none and it is not. |
| Express.WiredOnceAlways | node/src/adapters/express.ts:128-184 | Over whole runs that leave sentinels alone an installed app serves exactly one metrics path and has one middleware, for that path and one service, and its locals give service, version and the four exempt paths; any other app has none; the consumer's routes all survive, in order. |
| Express.InstalledAsAsked | node/src/adapters/express.ts:124-184 | From the start, over any such run, path, service and version are those that the first attempt to complete every step on that app asked for. |
| Express.ProcessFollows | node/src/adapters/express.ts:109-119 | Over any run the process reports the service of the last attempt to succeed on any app, and has a build_info sample for exactly those that did. |
| Express.RecordedOnce | node/src/adapters/express.ts:137-179 | Over any run that leaves sentinels alone, with finish and close in any order and multiplicity, the samples recorded are the log of a reference without stacks and failures: a request is recorded once by each installed app whose stack it passes, by service, method, route and status, unless it is for that app's metrics path, and by no other app; an app mounted in another adds its own record. |
| Express.RecordedOnceFromStart | node/src/adapters/express.ts:137-179 | The same from a world without apps and requests. |
| Express.DroppedSentinelDoubles | node/src/adapters/express.ts:71-86 | After an installed app's sentinel is dropped, a request for neither metrics path is recorded twice exactly when the next attempt succeeds, and once when it fails; either way the app is not wired once. |
| Express.RouteLabelExactly | node/src/adapters/express.ts:154-166 | A request matched in a router is labelled by the base path followed by the template; one without a template is unmatched. |
| Express.InstallExpress | node/src/adapters/express.ts:70-231 | A failing call throws and leaves app and process as `AppAfter` and `RolledBack` say, whatever step failed; a succeeding one commits; one on an installed app changes nothing. |
| Express.ExpressApp.Wire | node/src/adapters/express.ts:124-184 | The try block's steps on the app: it only ever appends to the router stack, and creates the router exactly when the route is added. |
| Express.ExpressApp.Unwire | node/src/adapters/express.ts:189-226 | The catch block cuts the stack to the given length and deletes every local. |
| Express.Responses.Listen | node/src/adapters/express.ts:137-177 | A middleware adds its listener to those a response has already, unless the request is for its metrics path. |
| Express.Responses.Finalize | node/src/adapters/express.ts:143-173 | The first finish or close runs the listener, which takes itself off both events and records one sample. |
| NodeProcess.RollbackExact | node/src/adapters/express.ts:197-227 | Undoing after any number of completed steps leaves exactly the declared remainder: the default label, counter values a relabelling dropped, and a sample whose key collided. |
| NodeProcess.RollbackLeavesExactly | node/src/registry.ts:328-346 | A failed attempt leaves shared state, CPU counter included, as it was exactly when it did not pass setting the default label to a new service, nor relabelling a collector with counter values to lose, nor its tuple's key collided. |
| NodeProcess.AttemptsErasable | node/src/adapters/next.ts:291-407 | Process-wide state after any run of attempts through any mix of adapters, with scrapes in between, is that of the run without the failed ones, up to the default label and which part of the accounted CPU time is still on a live counter. |
| NodeProcess.ProcessReportsLast | node/src/adapters/next.ts:291-407 | After any run of attempts, scrapes in between, the service global is the trimmed service of the last to succeed, the collector is registered for it, the default label is that of the last to get so far, and the build_info samples are those of exactly the successful ones (NUL-free labels). |
| NodeProcess.NoCollision | node/src/buildinfo.ts:45-47 | A NUL-free tuple never meets its key under another owner. |
| NodeProcess.CommitKeepsGood | node/src/buildinfo.ts:56-66 | A successful attempt keeps the global trimmed and samples and ownership in agreement. |
| NodeProcess.RollbackKeepsGood | node/src/buildinfo.ts:75-87 | So does a failed one. |
| NodeProcess.NodeProcess.Begin | node/src/adapters/hono.ts:125-135 | The shared steps up to the failing one, and the local variables that record how to undo each. |
| NodeProcess.NodeProcess.UndoSteps | node/src/adapters/hono.ts:257-271 | The shared half of the catch block. |
| NodeProcess.NodeProcess.RollBack | node/src/adapters/hono.ts:237-273 | Applied to an attempt that began in a given state, the catch block gives back that state, CPU counter included, but for the declared remainder. |
| NodeProcess.NodeProcess.SetService | node/src/baseline.ts:144-186 | The global becomes the trimmed name, or absent. |
| NodeProcess.NodeProcess.RegisterProcessCollector | node/src/process.ts:89-188 | Reuses, registers or relabels; a relabelling retires the prior service's CPU value only. |
| NodeProcess.NodeProcess.RestoreProcessCollector | node/src/process.ts:197-250 | Undoes what the token says was done. |
| NodeProcess.NodeProcess.Collect | node/src/process.ts:129-150 | A scrape's callback joins the end of the chain. |
| NodeProcess.NodeProcess.ReadUsage | node/src/process.ts:139-141 | The first callback on the chain reads cumulative CPU time. |
| NodeProcess.NodeProcess.AccountUsage | node/src/process.ts:142-148 | It adds the difference to the live service's counter, advances the memo and leaves the chain. |
| NodeProcess.NodeProcess.AccountDropped | node/src/process.ts:138-149 | A callback left over from dropped metrics advances the memo and feeds a counter nobody reads. |
| NodeProcess.NodeProcess.RegisterBuildInfo | node/src/buildinfo.ts:56-66 | Creates the sample, and reports whether the key was free. |
| NodeProcess.NodeProcess.UnregisterBuildInfoIfOwned | node/src/buildinfo.ts:75-87 | Drops key and sample for a creator, nothing for anyone else. |
| ProcessCollector.CpuConserved | node/src/process.ts:129-150 | For every interleaving of overlapping scrapes, relabellings, rollbacks and callbacks of dropped metrics, with non-decreasing CPU time: live counter values, retired values and what went to dropped counters add up to the last CPU time accounted, so nothing is counted twice. |
| ProcessCollector.NothingLost | node/src/process.ts:129-150 | If metrics are only dropped with no collect pending, live and retired values alone add up to it, so nothing is lost. |
| ProcessCollector.CpuConservedFromStart | node/src/process.ts:129-150 | The balance from the start of the process. |
| ProcessCollector.NothingLostFromStart | node/src/process.ts:129-150 | Likewise where metrics are only dropped with no collect pending. |
| ProcessCollector.OrphanExactly | node/src/process.ts:233-249 | A callback left over from dropped metrics takes exactly the CPU time since the last accounting, so live and retired values still balance exactly when that is none and none was lost before. |
| ProcessCollector.StepConserves | node/src/process.ts:89-238 | Each single step keeps that balance. |
| ProcessCollector.ValueIsEarned | node/src/process.ts:89-231 | Over any interleaving the collector is registered for the service of the last registration or undone swap, and each service's counter shows exactly the CPU time accounted while it was the registered one, since its value was last taken off. |
| ProcessCollector.AccountCredits | node/src/process.ts:138-146 | A reading is credited to the registered service and to no other. |
| ProcessCollector.BalanceNeedsMonotoneClock | node/src/process.ts:141-146 | Accounting a reading keeps the balance exactly when the reading is not below the previous one. |
| ProcessCollector.RestoreDropsExactly | node/src/process.ts:219-231 | Undoing a relabelling drops the failed service's value exactly when its name is not empty. |
| ProcessCollector.UndoneExactly | node/src/process.ts:197-232 | Undoing a registration gives back the collector exactly when it was fresh, for the same service, or no counter value was there to be dropped. |
| ProcessCollector.PriorValueGone | node/src/process.ts:208-212 | An input on which the prior service's value is lost by a rolled-back relabelling. |
| ProcessCollector.ScrapedIsStep | node/src/process.ts:129-150 | The scrape steps mixed with attempts are those of the collector. |
| Hono.InvAlways | node/src/adapters/hono.ts:159-236 | Over any run without a breaking step: at most one middleware and one route are wired, a wired route means installed with its absolute path equal to the live path, and an installed app has both. |
| Hono.InvStepExactly | node/src/adapters/hono.ts:159-236 | A step breaks that invariant exactly when it drops the sentinel of an installed app, or is an attempt that throws between a registration and its flag or at the sentinel. |
| Hono.RecordsRefine | node/src/adapters/hono.ts:135-216 | Over every run, dropped sentinels and failures at any step included: a request is recorded once for each middleware wired by then if it came in while the sentinel was set and was not for the live path, never otherwise; by service, method, route and status, under the service of the last attempt that was not a no-op if that succeeded, and under the closure of the attempt that wired the middleware if it failed. The app advertises service, version, exempt paths and absolute path of that attempt, or nothing if it failed. |
| Hono.RecordsRefineFresh | node/src/adapters/hono.ts:173-217 | From a fresh app, and the middlewares are as many as the attempts that threw between app.use and its flag, and one more once flagged. |
| Hono.RecordsIdeal | node/src/adapters/hono.ts:174-216 | With the sentinel left alone and no throw between a registration and its flag, that is the log of an ideal that ignores failed attempts and closures: each request once, always under the succeeding attempt's service. |
| Hono.ProcessFollows | node/src/adapters/hono.ts:125-135 | Over any run the process reports the service of the last attempt to succeed. |
| Hono.InstallHono | node/src/adapters/hono.ts:79-275 | A failing call clears the properties and undoes the shared steps but leaves its wiring; a succeeding one adds only the wiring that is missing. |
| Hono.StripTrailingSlashes | node/src/adapters/hono.ts:56-62 | Cuts off exactly the longest suffix of slashes. |
| Hono.HonoApp.AbsoluteMetricsPath | node/src/adapters/hono.ts:151-157 | The value of `AbsolutePath`, which `AbsolutePathExactly` states. |
| Hono.AbsolutePathExactly | node/src/adapters/hono.ts:56-62 | Below a base path, with any number of slashes at its end, the absolute path is the base path without them followed by the metrics path; at the root it is the metrics path. |
| Hono.HonoApp.Wire | node/src/adapters/hono.ts:139-236 | The try block's steps on the app, each registration and its flag skipped where the flag is set. |
| Hono.HonoApp.HandleRequest | node/src/adapters/hono.ts:174-184 | A request passes the gate of every wired middleware exactly when the app is live and it is not for the live path. |
| Hono.HonoApp.FinishRequest | node/src/adapters/hono.ts:187-215 | Those middlewares record it under the live service, or their closure's where there is none, with its method, route template and status. |
| Hono.WiredAtMostOnceExactly | node/src/adapters/hono.ts:173-231 | After any run, dropped sentinels included: at most one middleware and one route, both flagged and both on an installed app, and no request to be recorded twice, exactly when no attempt threw between a registration and its flag. |
| Hono.StraysCounted | node/src/adapters/hono.ts:173-231 | Over any run each such attempt adds exactly one middleware or route to the one that is flagged. |
| Hono.RearmedExactly | node/src/adapters/hono.ts:220-236 | With a route wired on an app that is not installed, the next attempt restores the stronger invariant exactly when it succeeds with the absolute path the route was wired for. |
| Hono.LeakedClosureExactly | node/src/adapters/hono.ts:187-215 | An instance: a request in flight while the sentinel is dropped and a third attempt made is recorded under that attempt's service if it succeeds, and under the closure of the failed first attempt if it fails. |
| Hono.RouteLabel | node/src/adapters/hono.ts:192-202 | A route label is the route's template, and the unmatched sentinel exactly for a middleware's pattern or none. |
| Hono.SampleDescribesResponse | node/src/adapters/hono.ts:187-215 | A sample carries the service, the method, the route label and the status class of the response it was made for. |
| NextInstall.CountsRefine | node/src/adapters/next.ts:257-389 | For any sequence of installs, cleared sentinels, failures, requests and finish/close events in any order and multiplicity: emit is the original or one patch calling it directly, and minted labels and samples are those of the log of a reference with no patches: every emission once, under the configuration it arrived under, when its response finishes. |
| NextInstall.SamplesShowRoutes | node/src/adapters/next.ts:331-349 | From the start, whatever the templates: each sample has its configuration's service, its request's method and its status, and the route label of its URL under that configuration's templates, unless the response was a 404 or that label came too late. |
| NextInstall.TemplateDecides | node/src/adapters/next.ts:182-184 | So a consumer's template is the label of what it is the first to match. |
| NextInstall.SeriesBounded | node/src/adapters/next.ts:331-349 | With every maxRoutes at most n there are never more than 10 (n + 2) 5 distinct (method, route, status) triples. |
| NextInstall.SentinelsUnambiguous | node/src/adapters/next.ts:113-134 | Over any run without templates, a sample's label is the unmatched sentinel iff its response was a 404, and the overflow sentinel iff it was not and its label was neither minted before nor within the cap. |
| NextInstall.EmitRestoredExactly | node/src/adapters/next.ts:383-390 | A failed attempt leaves emit as it was exactly when it failed before replacing it or emit was the true original. |
| NextInstall.HonestStepExactly | node/src/adapters/next.ts:371-390 | A step keeps `installed` implying patched exactly when it is not an attempt that throws while saving the original, after setting the sentinel. |
| NextInstall.HonestAlways | node/src/adapters/next.ts:371-390 | So over whole runs without such an attempt. |
| NextInstall.SentinelLeftSticks | node/src/adapters/next.ts:257-390 | After such an attempt nothing is ever patched, however often it is retried, until a consumer clears the sentinel. |
| NextInstall.InstallNext | node/src/adapters/next.ts:257-408 | One attempt: commits with a patch over the true original, or rolls the shared steps back. |
| NextInstall.NextServer.Patch | node/src/adapters/next.ts:284-390 | emit, sentinel and saved original after an attempt that got to a given step; the catch block restores emit only. |
| NextInstall.NextServer.EmitRequest | node/src/adapters/next.ts:303-363 | Each patch in the chain adds one listener to the response, unless the path is its metrics path, then calls the emit below. |
| NextInstall.NextServer.HandleRequest | node/src/adapters/next.ts:313-363 | Emitting a request adds exactly the listeners of the live chain to those its response has. |
| NextInstall.NextServer.Finalize | node/src/adapters/next.ts:331-356 | A finalizer counts its request once, with the label that `SamplesShowRoutes` states. |
| RouteCap.CapKeepsFirstDistinct | node/src/adapters/next.ts:128-134 | Over any request sequence the minted labels are the first min(N, distinct) labels in order, each always shown verbatim, and every other request overflows. |
| RouteCap.SeenRoutes.CapRoute | node/src/adapters/next.ts:128-134 | One call against the shared set of seen labels. |
| RouteCap.SeriesBound | node/src/registry.ts:254-291 | Triples over the fixed methods and statuses, n minted routes and two sentinels number at most 10 (n + 2) 5. |
| HttpLabels.MethodByUpperCase | node/src/registry.ts:268-291 | The fast path changes nothing: a method is labelled by its upper-case form if that is one of nine, else OTHER, and what is not text is OTHER. |
| HttpLabels.StatusBucketed | node/src/registry.ts:254-266 | A code from 100 to 599, number or text, keeps its class; any other, and one that is no finite number, is a server error. |
| HttpLabels.SampleDescribes | node/src/adapters/next.ts:331-349 | A sample has the service and route it is made with, the upper-case method or OTHER, and the hundreds digit of its status. |
| RouteLabels.LabelShape | node/src/adapters/next.ts:162-213 | For every URL and no templates: at most 165 characters over a fixed alphabet, one to five segments, never the overflow or unmatched sentinel. |
| RouteLabels.LabelExactly | node/src/adapters/next.ts:162-192 | Every template-free label, segment by segment: the classes of the path's segments, or of the first two when there are more than five, or the sentinel beyond 8192 characters. |
| RouteLabels.PathExactly | node/src/adapters/next.ts:171-175 | The path is all of the URL up to its first '?' or '#'. |
| RouteLabels.EncodingInvariance | node/src/adapters/next.ts:159-202 | Percent-encoding any characters of a '%'-free URL except '/', '?' and '#', as UTF-8 octets with hex digits in either case, leaves the label unchanged within the length limit. |
| RouteLabels.MalformedIsStr | node/src/adapters/next.ts:195-213 | A segment with a malformed escape is labelled ":str". |
| RouteLabels.SuffixIrrelevant | node/src/adapters/next.ts:171-175 | Appending a query string or a fragment never changes a label within the length limit, with any templates. |
| RouteLabels.SegmentsPreserved | node/src/adapters/next.ts:186-192 | A shallow path keeps its number of segments, each the class of its own, so a decoded '/' never adds one. |
| RouteLabels.DeepLabel | node/src/adapters/next.ts:187-190 | Two paths beyond the depth limit share a label exactly when their first two segments are classified alike. |
| RouteLabels.ClassesExclusive | node/src/adapters/next.ts:205-213 | The classes exclude one another, so each label names exactly one class of decoded texts whatever the order of the tests. |
| RouteLabels.ClassifiedByPatterns | node/src/adapters/next.ts:195-213 | Every segment stands for one text, what it is a percent-encoding of or itself when malformed, and its label is decided by that text and the three regular expressions. |
| RouteLabels.UuidExactly | node/src/adapters/next.ts:83-84 | The UUID test accepts exactly what its regular expression matches, group by group. |
| RouteLabels.SafeTextExactly | node/src/adapters/next.ts:100-100 | Likewise for short lower-case words. |
| RouteLabels.NumericExactly | node/src/adapters/next.ts:82-82 | Likewise for numbers. |
| RouteLabels.IdempotentExactly | node/src/adapters/next.ts:162-213 | Bucketing a label again gives it back exactly when its URL was within the length and depth limits and no segment decoded to a number or a UUID. |
| RouteLabels.TemplatesOverride | node/src/adapters/next.ts:165-184 | With templates the label is that of the first whose pattern matches the raw path; where none does, and for overlong URLs and the root, it is the label without templates. |
| PercentDecoding.DecodeExactly | node/src/adapters/next.ts:200-204 | A string decodes to p exactly when it is a percent-encoding of p, spelled in hexadecimal digits of either case: shortest-form UTF-8 of scalar values, everything else is malformed. |
| PercentDecoding.DigitExactly | node/src/adapters/next.ts:200-204 | A hexadecimal digit is read as its position in 0123456789ABCDEF or 0123456789abcdef. |
| PercentDecoding.Utf8Exactly | node/src/adapters/next.ts:200-204 | The octets of a character carry its number in their low bits, as section 3 of RFC 3629 lays them out. |
| PercentDecoding.SplitReencoded | node/src/adapters/next.ts:187-187 | Encoding never adds or removes a path separator and acts on each segment alone. |
| Text.TrimKeepsMiddle | node/src/baseline.ts:156-167 | Trimming removes white space only, at the two ends only. |
| Text.Trim | simsys_metrics/_baseline.py:132-149 | The result is trimmed, and a trimmed name is left alone, so writing a trimmed global back is exact. |
| Text.SpacesDiffer | simsys_metrics/_baseline.py:132-149 | The white space that Python's strip and JavaScript's trim remove differs on exactly the information separators, NEL and the byte order mark. |
| BuildInfoOwnership.OwnershipInvariant | simsys_metrics/build_info.py:103-168 | With every token spent at most once, in every interleaving: a tuple is owned iff its sample is present with value 1 iff exactly one unspent creator token exists for it. |
| BuildInfoOwnership.CreatorSampleSurvives | simsys_metrics/build_info.py:149-159 | The creator's sample survives any registrations and rollbacks by others. |
| BuildInfoOwnership.DoubleSpendExactly | simsys_metrics/build_info.py:160-168 | Using a spent creator token again changes the ledger exactly when another creator of the tuple is live. |
| BuildInfoOwnership.PyBuildInfo.Register | simsys_metrics/build_info.py:113-123 | One locked registration. |
| BuildInfoOwnership.PyBuildInfo.UnregisterIfOwned | simsys_metrics/build_info.py:149-168 | One locked rollback. |
| BuildInfo.KeysRefineTuples | node/src/buildinfo.ts:45-87 | On NUL-free labels the set over joined keys answers and evolves exactly like a set over tuples, step for step. |
| BuildInfo.LabelKeyInjective | node/src/buildinfo.ts:45-47 | Splitting the joined key gives the four labels back. |
| BuildInfo.KeyUniqueExactly | node/src/buildinfo.ts:45-47 | A joined key belongs to one tuple only exactly when no label contains a NUL. |
| PyCollector.InvAlways | simsys_metrics/_process.py:158-238 | In every interleaving of register and restore by any number of installers, repeated restores included, the registry holds exactly the singleton and identities are never reused. |
| PyCollector.RegisterReports | simsys_metrics/_process.py:158-183 | Whoever registers gets a live collector that reports its own service: the one there was if that did already, else a new one. |
| PyCollector.WellBracketedRestores | simsys_metrics/_process.py:186-238 | Any well-nested run of rolled-back installs returns the very same collector. |
| PyCollector.RestoreRemovesOwnOnly | simsys_metrics/_process.py:191-197 | A restore takes away the live collector only if its own installer, and no other, put it there. |
| PyCollector.RestoreExactly | simsys_metrics/_process.py:208-238 | A restore brings back the collector its registration found exactly when its own is live, or that one already is. |
| PyCollector.OutOfOrderExactly | simsys_metrics/_process.py:215-238 | Two installers rolled back oldest first clear the singleton exactly when both asked for the same service; otherwise the older collector returns. |
| PyCollector.ReuserLoses | simsys_metrics/_process.py:176-178 | Whoever shares the live collector with its installer merely reused it, and loses it to that installer's rollback. |
| PyCollector.ProcessCollectors.RegisterProcessCollector | simsys_metrics/_process.py:158-183 | One locked registration, whose collector `RegisterReports` describes; no registry call raises. |
| PyCollector.ProcessCollectors.RestoreProcessCollector | simsys_metrics/_process.py:186-238 | One locked restore; no registry call raises, and the prior collector is never a duplicate. |
| PyProcess.PyProcess.Begin | simsys_metrics/flask.py:105-110 | The shared steps up to the failing one and what is kept to undo them. |
| PyProcess.PyProcess.RollBack | simsys_metrics/flask.py:265-278 | Undoing them gives back service, collector (by identity), registry and ledger exactly. |
| PyProcess.PyProcess.SetService | simsys_metrics/_baseline.py:112-151 | The global becomes the stripped name, or absent. |
| PyProcess.LedgerRollback | simsys_metrics/build_info.py:113-168 | Registering and rolling back one's own token is the identity on a consistent ledger. |
| Flask.InstallFlask | simsys_metrics/flask.py:62-279 | From any app, a failure at any step boundary restores the process exactly and leaves the app as `AppAfter` says; a success commits, and its exception receiver, held by nothing else, is gone on return; a call on an installed app changes nothing. |
| Flask.FailureRestoresApp | simsys_metrics/flask.py:96-258 | Hooks, rules and sentinel are as before a failed call; receivers exactly when none of ours was connected before, as `ReceiversAreTheirs` shows for every run; and the app is identical exactly when moreover no hook list was created. |
| Flask.FlaskApp.Wire | simsys_metrics/flask.py:112-204 | The hooks, the receiver and the view, up to the failing step. |
| Flask.FlaskApp.DisconnectOurs | simsys_metrics/flask.py:220-236 | The loop disconnects the receivers with our handler's name and no other. |
| Flask.FlaskApp.Unwire | simsys_metrics/flask.py:205-258 | Hook lists from the snapshots, our receivers dropped, and the rules rebuilt exactly if an endpoint is new. |
| FastApi.InstallFastApi | simsys_metrics/fastapi.py:86-264 | A failure restores the process exactly; the app is left as `AppAfter` says. |
| FastApi.FastApiApp.Wire | simsys_metrics/fastapi.py:111-233 | Sentinel, middleware and route, or their rollback by length. |
| FastApi.MiddlewareRestoredExactly | simsys_metrics/fastapi.py:222-229 | Cutting the middleware list from the end restores it exactly when ours was not added or there was no other; otherwise ours stays and the app's own last one is lost. |
| PyInstalls.FailedInstallsErasable | simsys_metrics/flask.py:62-279 | After any run of attempts on any number of Flask and FastAPI apps in one process, each failing at any step or succeeding, with consumer hooks, receivers, rules, middlewares, routes and dropped sentinels in between: service, collector service, ledger, hooks, receivers, rules, routes, sentinels and the attributes of installed apps are those of the run without the failed attempts. |
| PyInstalls.FailedInstallsErasableFromStart | simsys_metrics/fastapi.py:86-264 | The same from a new process without apps. |
| PyInstalls.ProcessReportsLast | simsys_metrics/flask.py:105-110 | Over any run the service global is the stripped service of the last attempt to succeed, the live collector reports that service, and the build_info samples are those of exactly the successful attempts. |
| PyInstalls.FlaskAsAsked | simsys_metrics/flask.py:85-204 | Over any run a Flask app gains one before hook, one after hook and one rule for each attempt that succeeded, for the service and path it asked for, in order among the consumer's; its sentinel gives service, version and exempt paths of the last success until dropped. |
| PyInstalls.FastAsAsked | simsys_metrics/fastapi.py:111-206 | Likewise for the routes of a FastAPI app; its state is what the last attempt that was not a no-op asked for, and nothing if that failed. |
| PyInstalls.MiddlewareAsAsked | simsys_metrics/fastapi.py:148-178 | Where no failed attempt cuts it, its middleware list gains one in front for each success, for the service and path it asked for, among the consumer's. |
| PyInstalls.ReceiversAreTheirs | simsys_metrics/flask.py:167-190 | Over any such run an app's exception receivers are those it had and the consumer's: no install leaves one, successful or not. |
| PyInstalls.MiddlewareLost | simsys_metrics/fastapi.py:222-225 | The consumer's middlewares of the run without the failed attempts are those of the run, followed by exactly the ones failed attempts cut off, so they survive exactly when none was. |
| PyInstalls.MiddlewareErasableExactly | simsys_metrics/fastapi.py:222-225 | Where sentinels are left alone, a FastAPI app's middleware list is that of the run without the failed attempts exactly when none failed after adding its middleware to an app that had one already. |
| Progress.RateIsConvex | node/src/progress.ts:98-116 | Over any run with any tick times the rate is a weighted average of the instantaneous rates, under explicit weights that are non-negative and sum to 1. |
| Progress.RateBetween | node/src/progress.ts:98-116 | It lies between the least and the greatest instantaneous rate seen. |
| Progress.RateNonNegative | node/src/progress.ts:98-146 | The rate is never negative and no tick has seen more work than was done. |
| Progress.RateZeroExactly | node/src/progress.ts:98-116 | The rate is 0 exactly when every tick that saw work was followed by one that spanned a whole window. |
| Progress.WorkConserved | simsys_metrics/progress.py:215-243 | Rate times elapsed time over all effective ticks equals the work between first and last tick, less what ticks without elapsed time absorbed. |
| Progress.WorkIsCounted | node/src/progress.ts:98-154 | Ticks never touch the work: processed is every amount added, total the last one set. |
| Progress.IdleTicksDecay | simsys_metrics/progress.py:221-233 | Ticks without work scale the rate by exactly the product of (1 - alpha). |
| Progress.AlphaExactly | simsys_metrics/progress.py:225-227 | The smoothing factor is the elapsed share of the window, and 1 exactly when a whole window has elapsed. |
| Progress.EtaExact | node/src/progress.ts:112-123 | At constant throughput r every published nonzero completion time is start + total / r. |
| Progress.EtaExactFromStart | node/src/progress.ts:112-123 | The same for a tracker created at start. |
| Progress.EtaZeroExactly | node/src/progress.ts:98-123 | Over any run of a new tracker, the completion time the last tick publishes is 0 exactly when all work is done or every tick that saw work was followed by one that spanned a whole window. |
| Progress.ProgressTracker.Tick | node/src/progress.ts:98-124 | One tick: rate, bookkeeping and the three gauges. |
| Progress.ProgressTracker.Inc | node/src/progress.ts:139-146 | Adds to tracker and counter alike, or rejects a negative amount. |
| Progress.ProgressTracker.SetTotal | node/src/progress.ts:147-154 | Replaces the total, or rejects a negative one. |
| Progress.ProgressTracker.Stop | node/src/progress.ts:155-166 | A final tick the first time, nothing later. |
| GoProgress.InvAlways | go/progress.go:115-184 | In every interleaving of Inc, SetTotal and tick, with clock readings in any order: processed equals the exported counter plus the amounts in flight, lastProcessed never exceeds processed, and rates and remaining work are never negative. |
| GoProgress.ExportedCatchesUp | go/progress.go:115-126 | The exported counter never runs ahead, and equals processed exactly when no Inc is in flight. |
| GoProgress.TicksPublish | go/progress.go:115-176 | In every interleaving the tracker is that of the calls and ticks in the order they took the mutex, and each tick carries out the work left, never below zero, and the rate of just that tracker. |
| GoProgress.GaugesPublish | go/progress.go:171-176 | From the start, each gauge shows its own field of the snapshot it was last written from, whichever tick's write came last. |
| GoProgress.GoTracker.LockedInc | go/progress.go:115-124 | Inc inside the mutex, and its panic on a negative amount. |
| GoProgress.GoTracker.ExportInc | go/progress.go:125-125 | Inc after the mutex. |
| GoProgress.GoTracker.LockedSetTotal | go/progress.go:128-135 | SetTotal inside the mutex, and its panic. |
| GoProgress.GoTracker.LockedTick | go/progress.go:146-174 | A tick inside the mutex and the values it takes out. |
| GoProgress.GoTracker.SetRemaining | go/progress.go:171-175 | A late gauge write from some tick's values. |
| GoProgress.GoTracker.SetRate | go/progress.go:176-176 | Likewise for the rate. |
| Pool.SnapshotAtomic | node/src/baseline.ts:404-436 | However ticks overlap at their awaits, the gauges are all absent or all hold the values read by the last tick that read everything; the error counter is the number of rejections; and ticks started are those that read everything, those rejected and those in flight. |
| Pool.PoolTracker.Begin | node/src/baseline.ts:404-411 | A tick starts with nothing read. |
| Pool.PoolTracker.Resume | node/src/baseline.ts:410-435 | A tick resumes with one more value and writes all gauges once it has them all. |
| Pool.PoolTracker.WriteAll | node/src/baseline.ts:433-435 | The final loop overwrites exactly the gauges that were read. |
| Pool.PoolTracker.Fail | node/src/baseline.ts:420-432 | A failed callback counts one error and touches no gauge. |
| Pool.Coerce | node/src/baseline.ts:412-417 | A published value is the callback's number rounded down, infinite for positive infinity, and 0 for a negative number, negative infinity or none. |
| Jobs.ExactlyOnce | node/src/baseline.ts:306-356 | For any number of overlapping calls, signalled in any way any number of times: each call that settles adds one sample, a success exactly if its first signal was a plain return or a fulfilment, and jobs_total agrees with the histogram. |
| Jobs.SamplesAreCalls | node/src/baseline.ts:307-313 | Success and error samples together are as many as the calls that settled. |
| Jobs.JobTracker.Settle | node/src/baseline.ts:315-356 | What each exit of the wrapper does with its call's flag. |
| Jobs.JobTracker.Record | node/src/baseline.ts:307-313 | One sample in the counter and one in the histogram. |

## Left out

- HTTP servers, framework internals, the Prometheus clients, psutil and procfs, git subprocesses, log text, option validation and multiprocess mode.
- Failures part-way inside a helper or library call, for example between unregistering one collector and registering the next.
- Third parties that patch emit as well; only the adapter's own patches are layered.
- ProcessCollector.CpuConserved: reading and accounting are separate steps here, although the source runs them in one callback.
- Hono.RecordsRefine: a request is taken to pass every wired middleware; consumer routes registered before the middleware, which Hono answers first, are not modelled.
- Express.RecordedOnce: likewise, a request is taken to pass the whole stack, and the listeners of one response fire together on its first finish or close.
- PyInstalls.FailedInstallsErasable: a view that Flask refuses because the endpoint of a dropped install exists is a failing step here, without effect inside Flask; a consumer who keeps our exception receiver alive by a reference of its own; and identities of collector objects, which differ between the two runs.
- Text.Trim: white space is that of the two languages; other normalisation of service names does not exist in the source either.
- PercentDecoding.DecodeExactly: strings are sequences of Unicode scalar values, so a character outside the basic plane counts once towards the length limit, not twice, and lone surrogates do not occur.
- RouteLabels.TemplatesOverride: a template's regular expression is a pure test; expressions with the global or sticky flag keep state between tests.
- Pool.SnapshotAtomic: the stop handle; a tick in flight when stop() is called still writes. The Python and Go pollers run one tick at a time, which is the case without overlap.
- Jobs.ExactlyOnce: a record() that fails because no service is set; `trackJob(...).run`, Python's `_job_span` and Go's `TrackJobSpan`, which record once by construction.
- Progress.EtaExact: floating-point rounding, int64 overflow, and Go's completion time, which is based on whole seconds.
- trackQueue, `_attachStop`, safeLabel, the Go middleware and its status recorder, memory, file-descriptor and uptime gauges: they would add only easy members.

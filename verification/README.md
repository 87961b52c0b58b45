# Verified models of mcpd, otari and the genetic budget engine

This project models the stateful and algorithmic parts of three components and proves what they keep, for every input
and every run:

- `RateLimit.dfy`: the gateway's sliding-window rate limiter, refined against a plain history of accepted requests.
- `CliArgs.dfy`, with `Strings.dfy`, `Sublists.dfy` and `Options.dfy`: normalizing and merging command line arguments; merging is map override.
- `ServerConfig.dfy`, `ServerValidation.dfy`, `Registry.dfy`, `Reload.dfy`, `ReloadOutcome.dfy`, `Daemon.dfy`: server
  comparison and validation, the client and health registries, startup, and the reconciliation of running servers with a
  new configuration, for every map order and every combination of failures, with health checks recorded at any moment,
  over any sequence of reloads.
- `RegistryRaces.dfy`: starts, stops and pings interleaved on the two registries.
- `Streaming.dfy`: how a streamed response is settled, and failover between attempts.
- `Json.dfy`, `SpecFilter.dfy`, `Sanitizer.dfy`: filtering an OpenAPI document to what some operations need, and
  rewriting union members that have no name.
- `Handshake.dfy`: the SIGHUP handshake between the signal handler and the main loop.
- `Pipeline.dfy`: the plugin pipeline, serial and parallel.
- `PluginLists.dfy`, `PluginConfig.dfy`: the editable lists of plugins.
- `Durations.dfy`: printing and parsing durations.
- `Exports.dfy`: exporting a configuration with placeholders in place of values.
- `Genetic.dfy`: elitism and bounds of the genetic engine under arbitrary random draws.

Loops and updates of the programs are methods with loop invariants, mostly proved equal to a specification function;
the promises of the programs are lemmas about these functions. Protocols between threads are state machines whose runs
are arbitrary interleavings. Reals stand for seconds and for the engine's numbers. Outcomes of processes, networks and
plugins, and random draws, are arguments. What an operation does is also stated in terms of its raw inputs alone, with
literal constants and without the specification functions it is proved against. `dafny verify dfyconfig.toml` checks
everything.

Where a promise turned out to hold only on a condition, the condition is proved exact:

- Registering a server keeps the registries on the same names iff its name is already normalized, because the health
  tracker does not normalize (`Registry.RegistrationAgreesIffNormalized`).
- A configured server that is down stays down over any sequence of reloads (`Reload.RunStaysDown`), and a reload
  reports it iff its configuration changed (`Reload.DownIsReportedIff`).
- A streamed response settles exactly once iff its generator was started and `on_incomplete` is not itself cancelled
  while it handles a cancellation (`Settlement.SettlesExactlyOnce`).
- All opened and abandoned attempts are closed iff no attempt that is reached opens, fails, and has its classification
  or its report raise (`Failover.AbandonedAreClosed`).
- `moveToPosition` reaches the position that was asked for iff it does not move forward to a slot before the last
  (`PluginConfigs.PositionReachedIff`, with the example `PluginConfigs.ForwardMoveFallsShort`).
- Placing a plugin after itself panics iff it is last (`PluginConfigs.AfterItself`), and forcing a plugin into its own
  category panics iff it is last, and loses its successor otherwise (`PluginConfigs.IntoOwnCategory`).
- A combined move fails and still changes the configuration iff the plugin can move to the other list, finds other
  plugins there, and its place among them is bad (`PluginConfigs.FailedMoveIsHalfDone`, with the example
  `PluginConfigs.HalfDoneMove`).
- A response that nobody stops survives the pipeline iff no content plugin takes part or it is already the default
  response (`Pipelines.ResponseSurvivesIff`); modified requests are never passed on (`Pipelines.ModificationsAreLost`).
- An exported configuration validates iff no volume is required and every required value whose name has an equals sign
  happens to be supplied by a boolean flag (`Exports.ExportValidatesIff`), and the placeholder of an environment
  variable is entered under its own name iff the variable's name does not end in white space
  (`Exports.EnteredUnderItsNameIff`).
- A seeded population lies within the budget bounds iff the unbounded draws stay between -1.95 and 1.00
  (`Genetic.SeedsInRangeIff`).
- The verdict of a ping is recorded for the client that was pinged iff that client is the one started last while the
  ping was under way (`RegistryRaces.VerdictIsRightIff`, with the example `RegistryRaces.StalePingHitsNewClient`).
- The comparison of servers finds every change of an argument list iff no two of its arguments differ
  (`ServerConfig.NoticesAllIff`).

Three places differ from what one would expect, and the model follows the code: the comment of `moveToPosition` says
the position is absolute; the static volumes of a server are ignored when servers are compared for a reload
(`ServerConfig.VolumesNotCompared`); and so is the order of its arguments, positional ones included, so that a server
whose arguments were only reordered keeps running with the old order (`ServerConfig.ReorderingNotNoticed`).

## Model

| member | source | states |
|---|---|---|
| `RateLimit.RateLimiter.constructor` | otari/src/gateway/rate_limit.py:31-35 | a new limiter has an empty history |
| `RateLimit.RateLimiter.Check` | otari/src/gateway/rate_limit.py:37-73 | the call is allowed iff fewer than rpm accepted requests of the user lie in the last 60 seconds of the full history, which it extends exactly then; answer and state are those of the step function |
| `RateLimit.RateLimiter.PopExpired` | otari/src/gateway/rate_limit.py:55-57 | the loop drops exactly the expired front of the user's deque |
| `RateLimit.RateLimiter.SweepStale` | otari/src/gateway/rate_limit.py:75-79 | collect-then-delete removes exactly the users without a live entry |
| `RateLimit.CleanupInvisible` | otari/src/gateway/rate_limit.py:50-53 | the periodic sweep loses no live request of anybody |
| `RateLimit.StepRefines` | otari/src/gateway/rate_limit.py:47-73 | one call answers as the history does, remaining count included, and state and history stay related |
| `RateLimit.RunRefines` | otari/src/gateway/rate_limit.py:47-79 | over every run with a nondecreasing clock each call is answered as the history of accepted requests says, sweeps or not |
| `RateLimit.WindowBound` | otari/src/gateway/rate_limit.py:47-79 | no half-open 60 second window, wherever it starts, holds more than rpm accepted requests of a user |
| `RateLimit.RetryAfterExact` | otari/src/gateway/rate_limit.py:59-67 | Retry-After is in 1..60 and the least whole number of seconds after which the user's next call succeeds, whatever others do |
| `RateLimit.RetryAfterOverRuns` | otari/src/gateway/rate_limit.py:59-67 | the same over whole runs of calls, with any calls of other users in between and any rejected calls of the user: early retries do not postpone the wait |
| `RateLimit.ResetExact` | otari/src/gateway/rate_limit.py:69-73 | the reported reset time is the first moment at which one of the user's slots frees up |
| `RateLimit.AllowedIffRoom` | otari/src/gateway/rate_limit.py:47-73 | over every run, in terms of calls and answers alone: a call at time t is allowed iff fewer than rpm earlier allowed calls of the user lie in (t - 60, t], and says how many remain |
| `RateLimit.AcceptedBound` | otari/src/gateway/rate_limit.py:47-79 | no interval (x, x + 60] has more than rpm allowed calls of a user |
| `RateLimit.RetryAfterIsLeast` | otari/src/gateway/rate_limit.py:59-67 | Retry-After is the least whole number of seconds after which one of the counted calls is 60 seconds old |
| `RateLimit.ResetIsOldestLeaving` | otari/src/gateway/rate_limit.py:69-73 | the reset time is when the oldest counted call, the present one included, is 60 seconds old |
| `RateLimit.StaleUsersAreForgotten` | otari/src/gateway/rate_limit.py:50-53 | after every thousandth call no other user without an accepted request in the last 60 seconds is stored |
| `CliArgs.NormalizeArgs` | mcpd/internal/config/args.go:32-78 | the look-ahead loop computes the left-to-right meaning of the argument list |
| `CliArgs.ProcessAllArgs` | mcpd/internal/config/args.go:153-197 | so does the loop that normalizes flag group by flag group, with positional arguments kept |
| `CliArgs.NormalizedIsProcessedFlags` | mcpd/internal/config/args.go:32-197 | for every list, normalizing equals processing restricted to flags: the two implementations agree |
| `CliArgs.CombinedIff` | mcpd/internal/config/args.go:54-60 | a combined group is a single dash with more than one byte behind it and no equals sign |
| `CliArgs.PositionalStays` | mcpd/internal/config/args.go:49-52 | a positional argument is dropped by the one and kept in place by the other |
| `CliArgs.FlagWithValueStays` | mcpd/internal/config/args.go:62-66 | a flag with an equals sign comes out unchanged |
| `CliArgs.FlagTakesValue` | mcpd/internal/config/args.go:68-74 | a flag followed by a non-flag comes out joined with it by an equals sign, and the argument is consumed |
| `CliArgs.FlagStandsAlone` | mcpd/internal/config/args.go:68-74 | a flag followed by a flag or by nothing comes out alone |
| `CliArgs.CombinedIsSplit` | mcpd/internal/config/args.go:54-60 | a combined group comes out as one flag per letter, in order |
| `CliArgs.ParseArgs` | mcpd/internal/config/args.go:200-221 | the map of the last entry per key |
| `CliArgs.ParsedAtFirstSeparator` | mcpd/internal/config/args.go:200-221 | an argument is split at its first equals sign, and both sides are trimmed |
| `CliArgs.ParsedIsLast` | mcpd/internal/config/args.go:200-221 | of several arguments with one key the last is the entry |
| `CliArgs.ParsePrintRoundTrip` | mcpd/internal/config/types.go:168-173 | printing a parsed argument and parsing it again gives the same entry |
| `CliArgs.MergeArgs` | mcpd/internal/config/args.go:110-143 | the merge loop computes the merged list: overridden in place, then what is new |
| `CliArgs.MergeIsOverride` | mcpd/internal/config/args.go:110-143 | parsing a merge is the first map overridden by the second, for all lists, with duplicates and untrimmed text |
| `CliArgs.MergeKeepsPositions` | mcpd/internal/config/args.go:110-143 | every argument of the first list keeps position and key, and is untouched unless overridden |
| `CliArgs.NewArgumentsFollow` | mcpd/internal/config/args.go:110-143 | what follows are exactly the arguments of the second list whose keys the first one lacks, as they are and in their order |
| `CliArgs.SeparatePositionalAndFlags` | mcpd/internal/config/args.go:226-239 | splits a list into its positional arguments and its flags, in order |
| `CliArgs.SeparatedByDash` | mcpd/internal/config/args.go:226-239 | the flags are exactly the arguments with a dash in front, the positional ones exactly the others, each in order |
| `Strings.TrimSpaceCuts` | mcpd/internal/config/args.go:39 | trimming removes all white space in front and at the end and nothing else |
| `Strings.NormalizeMeans` | mcpd/internal/filter/match.go:36-38 | a name is looked up trimmed and with every capital letter replaced by its small one |
| `Strings.LowerIsPaired` | mcpd/internal/filter/match.go:36-38 | exactly the capital letters are replaced |
| `CliArgs.MergeArgsWithPositionalHandling` | mcpd/internal/config/args.go:245-259 | new positional arguments followed by the merged flags |
| `CliArgs.PositionalMergeMeaning` | mcpd/internal/config/args.go:245-259 | its result has exactly the new positional arguments, and its flags are the old ones overridden by the new ones |
| `SortedStrings.EqualUnorderedIsMultisetEquality` | mcpd/internal/config/types.go:258-270 | comparing sorted clones is equality of multisets |
| `ServerConfig.EntryCell.EqualExceptTools` | mcpd/internal/config/types.go:233-254 | overwriting the other entry's tools is undone, also under aliasing, and the answer is the comparison without tools |
| `ServerConfig.ComparisonsMean` | mcpd/internal/runtime/server.go:53-85 | Equals is same launch configuration and same tools; EqualsExceptTools is same launch configuration and different tools |
| `ServerConfig.SameLaunchIff` | mcpd/internal/config/types.go:191-229 | having the same launch configuration ignores the tools, the volumes and the order of all lists but the positional arguments, and nothing else |
| `ServerConfig.VolumesNotCompared` | mcpd/internal/config/types.go:191-229 | changing only static volumes goes unnoticed |
| `ServerConfig.ReorderingNotNoticed` | mcpd/internal/context/context.go:147-185 | a change of the arguments goes unnoticed iff it only reorders them |
| `ServerConfig.NoticesAllIff` | mcpd/internal/context/context.go:147-185 | an unchanged server surely has the configured argument list iff no two of its arguments differ |
| `ServerValidation.RefusedIff` | mcpd/internal/runtime/server.go:151-289 | a server is refused iff a required variable is absent or empty, too few arguments stand before the first long flag, a required value, boolean flag or volume is missing |
| `ServerValidation.Validate` | mcpd/internal/runtime/server.go:258-289 | the checks one after the other, with exactly the missing names reported |
| `ServerValidation.CheckPositionalArgs` | mcpd/internal/runtime/server.go:165-192 | the count up to the first long flag, and the names of the missing positional arguments in order |
| `ServerValidation.FindValue` | mcpd/internal/runtime/server.go:198-217 | the look-ahead search finds exactly a supplied value |
| `Registry.RegistrationAgreesIffNormalized` | mcpd/internal/daemon/daemon.go:329-330 | registering keeps both registries on the same names iff the name is normalized |
| `Registry.ClientManager.Add` | mcpd/internal/daemon/client_manager.go:32-39 | stores client and tools under the normalized name |
| `Registry.ClientManager.Lookup` | mcpd/internal/daemon/client_manager.go:45-51 | finds a client by normalized name |
| `Registry.ClientManager.UpdateTools` | mcpd/internal/daemon/client_manager.go:81-95 | replaces the tools of a known client and refuses an unknown one |
| `Registry.ClientManager.Remove` | mcpd/internal/daemon/client_manager.go:100-106 | forgets client and tools |
| `Registry.HealthTracker.constructor` | mcpd/internal/daemon/health_tracker.go:22-30 | one unknown record per name |
| `Registry.HealthTracker.Add` | mcpd/internal/daemon/health_tracker.go:85-96 | adds a fresh record unless there is one |
| `Registry.HealthTracker.Update` | mcpd/internal/daemon/health_tracker.go:54-81 | records a verdict for a tracked name and never adds a name |
| `Registry.RecordShowsVerdicts` | mcpd/internal/daemon/health_tracker.go:54-81 | after any verdicts a record shows the last one and the time of the last successful one, and nothing else has changed |
| `Registry.HealthTracker.Remove` | mcpd/internal/daemon/health_tracker.go:99-104 | removes exactly that record |
| `Daemons.NewDaemon` | mcpd/internal/daemon/daemon.go:64-139 | no daemon iff some configured server is refused (`ServerValidation.RefusedIff`); otherwise one that runs nothing and tracks every name |
| `Daemons.Daemon.constructor` | mcpd/internal/daemon/daemon.go:98-139 | empty client registry, an unknown health record for every configured name |
| `Daemons.Daemon.StartServers` | mcpd/internal/daemon/daemon.go:172-196 | for every interleaving of the concurrent starts, exactly the servers whose start goes well are started and all others are reported; the registries hold exactly the started ones (distinct normalized names), and match the configuration if nothing is reported |
| `Daemons.Daemon.BeginStart` | mcpd/internal/daemon/daemon.go:200-329 | one start's first step: the server is launched and added to the clients, or reported |
| `Daemons.RegistersAll` | mcpd/internal/daemon/daemon.go:172-196 | once all configured servers are registered, in any order, the registries match |
| `Daemons.Daemon.StartServer` | mcpd/internal/daemon/daemon.go:200-335 | starts iff there are tools, a supported runtime and a launch that goes well; registers client, tools and health then, and nothing otherwise, whatever verdicts health checks record meanwhile |
| `Daemons.Daemon.Launch` | mcpd/internal/daemon/daemon.go:200-216 | the checks before a launch, and its result |
| `ReloadOutcome.RuntimeIsPrefix` | mcpd/internal/config/types.go:160-166 | the runtime is the part of a package before the first "::" |
| `Daemons.Daemon.StopServer` | mcpd/internal/daemon/daemon.go:741-770 | unregisters first; succeeds iff the server was registered and closes in time; a close that times out leaves nothing registered, and no health check brings it back |
| `Daemons.Daemon.HealthChecks` | mcpd/internal/daemon/daemon.go:367-409 | any number of recorded verdicts changes no client, no tools and no set of tracked names |
| `Daemons.Daemon.ReloadServers` | mcpd/internal/daemon/daemon.go:611-738 | an invalid configuration changes nothing and names exactly the refused servers; any other reload, for every map order and up to verdicts that health checks record at any moment, reports exactly the operations that go wrong and leaves exactly the servers running whose operations go well; these are configured and run as configured, unchanged and tools-only servers keep client and health record; from a matching state no error means full convergence |
| `Daemons.Daemon.StopRemoved` | mcpd/internal/daemon/daemon.go:684-690 | the removals of a reload, in any order, as a fold, with exactly the failed stops reported |
| `Daemons.Daemon.UpdateChangedTools` | mcpd/internal/daemon/daemon.go:692-700 | the tool updates of a reload, in any order, as a fold, with exactly the unregistered servers reported |
| `Daemons.Daemon.RestartChanged` | mcpd/internal/daemon/daemon.go:702-718 | the restarts of a reload, in any order, as a fold, with exactly the failing names reported |
| `Daemons.Daemon.RestartServer` | mcpd/internal/daemon/daemon.go:702-718 | stops, and starts only when the stop went well |
| `Daemons.Daemon.AddNew` | mcpd/internal/daemon/daemon.go:720-726 | the additions of a reload, in any order, with exactly the failing names reported |
| `Reload.PlanMeets` | mcpd/internal/daemon/daemon.go:641-726 | executing any listing of the four change sets, with any failures, from a state in which only configured servers run leaves every name as specified, reported, or down as before |
| `Reload.StepReloads` | mcpd/internal/daemon/daemon.go:641-738 | a reload of a matching state that reports no error has converged |
| `Reload.DownIsReportedIff` | mcpd/internal/daemon/daemon.go:660-726 | a server that is down and still configured is reported iff its configuration changed |
| `ReloadOutcome.ErrorsAre` | mcpd/internal/daemon/daemon.go:641-738 | a reload reports exactly: removed servers that were not running or did not close, restarted ones likewise or whose start fails, added ones whose start fails, and tool updates of servers that were not running |
| `ReloadOutcome.RunsIff` | mcpd/internal/daemon/daemon.go:641-738 | afterwards exactly those run: added ones that start, unchanged and tools-only ones that ran, and changed ones that ran, closed and start again |
| `Reload.ByNameIsLast` | mcpd/internal/daemon/daemon.go:626-640 | of several servers of one name the last is configured |
| `Reload.PingedKeeps` | mcpd/internal/daemon/daemon.go:339-409 | health checks change nothing about what runs, what matches and what is down |
| `Reload.RunKeepsOnly` | mcpd/internal/daemon/daemon.go:611-738 | over any sequence of executed reloads, with any failures, and health checks between and during them, only configured servers run, and as configured |
| `Reload.RunMatches` | mcpd/internal/daemon/daemon.go:611-738 | over any sequence of executed reloads without errors, health checks between and during them, the registries match every configuration in turn |
| `Reload.RunKeepsClient` | mcpd/internal/daemon/daemon.go:611-738 | over any sequence of reloads, with any failures of others, a running server whose launch configuration never changes keeps its first client, and its health record changes by health checks only |
| `Reload.RunStaysDown` | mcpd/internal/daemon/daemon.go:660-726 | over any sequence of reloads and health checks a configured server that is down stays down as long as it remains configured |
| `RegistryRaces.RunKeepsInv` | mcpd/internal/daemon/daemon.go:367-409 | in every interleaving clients and tools have the same names, and health differs at most on the server between its two steps |
| `RegistryRaces.PingEndKeepsKeys` | mcpd/internal/daemon/health_tracker.go:54-81 | a late ping never creates or removes a health record |
| `RegistryRaces.RemovedStaysRemoved` | mcpd/internal/daemon/daemon.go:741-751 | a removed record stays away until the server is started again, whatever pings were in flight |
| `RegistryRaces.IdleRunsAgree` | mcpd/internal/daemon/daemon.go:329-330 | whenever no start or stop is half done, the registries agree on names |
| `RegistryRaces.VerdictIsRightIff` | mcpd/internal/daemon/daemon.go:367-409 | in every interleaving between the two steps of a ping, its verdict is about the registered client iff the client of the last start in between, if there is one, is the one that was pinged |
| `RegistryRaces.VerdictIsRightWithoutStart` | mcpd/internal/daemon/daemon.go:367-409 | when no start of the name lies in between, the verdict is always about the registered client |
| `RegistryRaces.ToolsAreLast` | mcpd/internal/daemon/client_manager.go:81-95 | in every interleaving a registered server offers the tools of its last start or update |
| `RegistryRaces.StalePingHitsNewClient` | mcpd/internal/daemon/daemon.go:367-409 | a concrete run in which an old ping marks the new client unreachable |
| `Settlement.StreamingGenerator` | otari/src/gateway/streaming.py:105-155 | what is yielded and which callbacks are called, for every end, error, cancellation, close before the start or at any yield, and callback behaviour |
| `Settlement.SettlesExactlyOnce` | otari/src/gateway/streaming.py:105-155 | with all callbacks exactly one call settles the run, iff the generator was started and on_incomplete is not cancelled while handling a cancellation |
| `Settlement.UnsettledOnlyWithoutCallback` | otari/src/gateway/streaming.py:105-155 | nothing is called iff the generator was never started or the callback for the outcome was not given |
| `Settlement.MergedIsLastNonZero` | otari/src/gateway/streaming.py:63-71 | every merged usage field is its last non-zero value |
| `Settlement.CompletionReportsLastValues` | otari/src/gateway/streaming.py:105-128 | a completed stream reports exactly these values |
| `Settlement.CalledIff` | otari/src/gateway/streaming.py:105-155 | on_error iff the run goes through and fails, on_complete iff it ends with usage, on_no_usage iff it ends without, on_incomplete iff it is cancelled or closed; twice only if cancelled again |
| `Settlement.ReceivedIs` | otari/src/gateway/streaming.py:105-143 | every chunk in order, then the done marker, or the error payload and its marker, up to where the client closes |
| `Settlement.LastNonZeroIsLast` | otari/src/gateway/streaming.py:63-71 | the merged value of a field is non-zero at a chunk and at no later one, or zero at all |
| `Failover.TryAttempt` | otari/src/gateway/streaming.py:197-234 | one turn of the loop: commit, continue or raise, with its report and its close, also when the classification or the report raises |
| `Failover.IterateStreamingAttempts` | otari/src/gateway/streaming.py:194-238 | the loop ends at the first attempt that is not skipped, builds none after it, reports each classified failure once, in order, commits to a relay that delivers the attempt's whole stream, and has closed all abandoned streams iff no classification or report raised about an opened one |
| `Failover.ReachedIff` | otari/src/gateway/streaming.py:194-238 | an attempt is built iff each earlier one timed out or failed with a retryable class before its first chunk, and its report succeeded |
| `Failover.CommitsToFirst` | otari/src/gateway/streaming.py:194-238 | the loop commits to the first attempt that does not fail before its first chunk, with its whole stream |
| `Failover.EndsWithIs` | otari/src/gateway/streaming.py:197-238 | otherwise it raises what the classification, the report or the attempt raised last |
| `Failover.ReportsAre` | otari/src/gateway/streaming.py:197-234 | a time-out is reported as "timeout", any other failure by its class, and nothing when classifying raises |
| `Failover.ReportsInOrder` | otari/src/gateway/streaming.py:194-238 | the reports of the attempts passed over are theirs, in order |
| `Failover.ClosedIff` | otari/src/gateway/streaming.py:217-234 | a stream is closed iff it opened, failed, and was classified and reported without trouble |
| `Failover.AbandonedAreClosed` | otari/src/gateway/streaming.py:217-234 | every opened but abandoned stream is closed, iff no attempt that is reached opens, fails and has its classification or report raise |
| `Failover.LeakEndsTheLoop` | otari/src/gateway/streaming.py:217-234 | a stream is left open only by the last attempt that is built |
| `Failover.Drain` | otari/src/gateway/streaming.py:241-250 | the relay's loop yields the held chunk and then what the stream still delivers |
| `Failover.StitchedIsWhole` | otari/src/gateway/streaming.py:207-244 | after the first chunk was taken from the stream, draining the relay gives the whole original stream and its end: nothing lost, doubled or reordered |
| `SpecFilter.FilterPaths` | otari/scripts/sdk_codegen/generate.py:196-207 | the paths with at least one kept operation, in order |
| `SpecFilter.KeptMethodsMeaning` | otari/scripts/sdk_codegen/generate.py:199-205 | an operation is kept iff it carries one of the tags |
| `SpecFilter.MethodsAreFiltered` | otari/scripts/sdk_codegen/generate.py:199-205 | the kept operations are the dictionaries whose list of tags has one of the tags, in order |
| `SpecFilter.PathsAreFiltered` | otari/scripts/sdk_codegen/generate.py:196-207 | the kept paths are those with an operation left, in order |
| `SpecFilter.CollectedIff` | otari/scripts/sdk_codegen/generate.py:175-186 | a name is collected iff some dictionary, however deep in members or lists, has a "$ref" to a component schema that ends in it |
| `SpecFilter.RootsAreReferences` | otari/scripts/sdk_codegen/generate.py:209-211 | the search starts from the names that kept operations refer to |
| `SpecFilter.NeededSchemas` | otari/scripts/sdk_codegen/generate.py:209-223 | the worklist ends, also on cycles, with exactly the names that some chain of references reaches |
| `SpecFilter.FilterSpec` | otari/scripts/sdk_codegen/generate.py:189-232 | the kept schemas are the existing reachable ones; the rest of the document is carried over |
| `SpecFilter.NothingDangles` | otari/scripts/sdk_codegen/generate.py:209-225 | no kept path or schema refers to a schema that exists but was dropped |
| `SpecFilter.KeptIsLeast` | otari/scripts/sdk_codegen/generate.py:209-225 | every self-contained set of schemas that serves the kept paths contains the kept ones |
| `SpecFilter.KeptTwice` | otari/scripts/sdk_codegen/generate.py:209-225 | filtering the kept schemas again changes nothing |
| `SpecFilter.PathsKeptTwice` | otari/scripts/sdk_codegen/generate.py:196-207 | filtering the kept paths again changes nothing |
| `Sanitizer.Sanitize` | otari/scripts/sdk_codegen/generate.py:410-432 | the two-pass walk ends although it descends into what it rewrote, and reports a rewrite iff the document had a nameless union member |
| `Sanitizer.RewriteMembers` | otari/scripts/sdk_codegen/generate.py:417-427 | the inner loop rewrites exactly the nameless members of one union |
| `Sanitizer.FreeFormIff` | otari/scripts/sdk_codegen/generate.py:346-363 | exactly {"type": "object"}, alone or with additionalProperties true |
| `Sanitizer.EmptyIff` | otari/scripts/sdk_codegen/generate.py:366-378 | exactly the schemas without keys other than title and description |
| `Sanitizer.FreeFormArrayIff` | otari/scripts/sdk_codegen/generate.py:417-421 | exactly the arrays whose items have such a shape |
| `Sanitizer.CleanIff` | otari/scripts/sdk_codegen/generate.py:410-432 | a document is clean iff nowhere an anyOf or oneOf list has such a member |
| `Sanitizer.WalkCleans` | otari/scripts/sdk_codegen/generate.py:410-434 | afterwards no anyOf or oneOf anywhere has an empty schema or an array of free-form objects as a member |
| `Sanitizer.WalkTwice` | otari/scripts/sdk_codegen/generate.py:410-434 | a second walk changes nothing |
| `Sanitizer.OtherPlacesStay` | otari/scripts/sdk_codegen/generate.py:410-434 | every place that is not rewritten, or below one, keeps its keys, its length or its value; rewritten places hold the reference |
| `Sanitizer.SanitizeSpec` | otari/scripts/sdk_codegen/generate.py:405-444 | the result, or the error for a schema of the shared name that differs |
| `Sanitizer.OutcomeIff` | otari/scripts/sdk_codegen/generate.py:405-444 | the errors, iff components is no dictionary, or something must be rewritten and another schema has the shared name; a clean specification is returned as it is |
| `Sanitizer.EqualsDesiredIff` | otari/scripts/sdk_codegen/generate.py:435-437 | the shared schema in either order of keys, or with 1 for true |
| `Sanitizer.SanitizedForGood` | otari/scripts/sdk_codegen/generate.py:405-444 | a sanitized specification is clean, and sanitizing it again returns it |
| `Sanitizer.ReferenceResolves` | otari/scripts/sdk_codegen/generate.py:434-444 | when something was rewritten the shared schema exists, and all other schemas are the walked ones |
| `Handshake.RunKeepsInv` | mcpd/cmd/daemon.go:833-858 | the invariant of flag, channel, handler, main loop and counters holds in every interleaving |
| `Handshake.FlagMeansOnePhase` | mcpd/cmd/daemon.go:464-477 | the flag is up iff exactly one reload is chosen, queued or running; the full-channel branch is never taken; accepted signals are the completed reloads and the one under way |
| `Handshake.FlagFromStart` | mcpd/cmd/daemon.go:464-477 | so it is after every run from the start of the program |
| `Handshake.ReloadsAlternate` | mcpd/cmd/daemon.go:833-858 | over every run accepting, sending, starting and ending strictly alternate |
| `Handshake.AcceptedIsServed` | mcpd/cmd/daemon.go:464-477 | from every reachable state the remaining steps are possible and serve every accepted signal |
| `Handshake.DroppedOnlyWhileReloading` | mcpd/cmd/daemon.go:842-851 | a signal is dropped iff a reload is queued or running |
| `Handshake.PendingSignalStays` | mcpd/cmd/daemon.go:833-858 | a waiting signal is not replaced, and goes only when it is taken |
| `Handshake.ShutdownStays` | mcpd/cmd/daemon.go:833-858 | over every run a shutdown that was asked for stays so, and an exited program stays so |
| `Handshake.ShutdownIsSeen` | mcpd/cmd/daemon.go:464-477 | a shutdown can be seen as soon as no reload runs, and ends the program |
| `Pipelines.HandledAsDocumented` | mcpd/internal/plugin/pipeline.go:342-372 | a result stops the pass iff it is a required plugin's error, or a rejection that is required or not ignored |
| `Pipelines.FilterByFlow` | mcpd/internal/plugin/pipeline.go:375-400 | the configured and capable plugins in order, or an error when capabilities are unknown |
| `Pipelines.EligibleMeans` | mcpd/internal/plugin/pipeline.go:375-400 | a plugin is invoked in a flow iff it is registered, configured for it and supports it |
| `Pipelines.EligibleIsFilter` | mcpd/internal/plugin/pipeline.go:375-400 | the invoked plugins are exactly those configured for the flow and capable of it, in the order of registration |
| `Pipelines.ExecuteSerial` | mcpd/internal/plugin/pipeline.go:297-327 | invokes plugins up to the first that stops, whose answer is the result |
| `Pipelines.ExecuteParallel` | mcpd/internal/plugin/pipeline.go:249-294 | invokes everybody, and for every order of arrival stops iff somebody stops, with the answer of one that does |
| `Pipelines.Pipeline.Register` | mcpd/internal/plugin/pipeline.go:185-205 | appends to a known category and refuses an unknown one |
| `Pipelines.Pipeline.HandleRequest` | mcpd/internal/plugin/pipeline.go:43-112 | the complete account of a pass: which categories run, who is invoked with which message, and how it ends |
| `Pipelines.Pipeline.HandleResponse` | mcpd/internal/plugin/pipeline.go:117-181 | the same for responses, which a content category replaces |
| `Pipelines.ContinuesIff` | mcpd/internal/plugin/pipeline.go:43-112 | the pass continues iff nobody eligible in any category stops, for every order of arrival |
| `Pipelines.RequiredNeverPasses` | mcpd/internal/plugin/pipeline.go:43-112 | no pass continues in which a required plugin takes part and fails or rejects |
| `Pipelines.SerialIsPrefix` | mcpd/internal/plugin/pipeline.go:297-327 | in a serial category the invoked plugins are a prefix in which only the last may stop |
| `Pipelines.ContinuesIffNobodyObjects` | mcpd/internal/plugin/pipeline.go:43-181 | in terms of plugins and answers alone: a pass continues iff no configured plugin has unknown capabilities, no required one fails or rejects, and no optional one outside observability rejects |
| `Pipelines.StoppedPassIsEndedBy` | mcpd/internal/plugin/pipeline.go:43-181 | otherwise the result is the rejection of such a plugin, or an error that one causes |
| `Pipelines.InvokedAre` | mcpd/internal/plugin/types.go:13-21 | observability invokes everybody; any other category a prefix up to the first that objects |
| `Pipelines.OrderIs` | mcpd/internal/config/plugin_config.go:49-57 | the order of the categories |
| `Pipelines.ShownResponse` | mcpd/internal/plugin/pipeline.go:117-181 | every category is shown the original response, except audit after content plugins |
| `Pipelines.ModificationsAreLost` | mcpd/internal/plugin/pipeline.go:95-98 | every plugin sees the original request |
| `Pipelines.ResponseSurvivesIff` | mcpd/internal/plugin/pipeline.go:165-168 | an unstopped response comes out unchanged iff no content plugin takes part, or it is the default one |
| `PluginLists.FindPluginIndex` | mcpd/internal/config/plugin_config.go:743-750 | the first position of a name, or -1 |
| `PluginConfigs.SameEntryMeans` | mcpd/internal/config/plugin_config.go:164-206 | entries are equal iff they differ at most in order and repetition of flows |
| `PluginConfigs.ValidEntryIff` | mcpd/internal/config/plugin_config.go:233-262 | an entry is valid iff it has a name and one or both flows, without repetition |
| `PluginConfigs.PluginConfig.UpsertPlugin` | mcpd/internal/config/plugin_config.go:402-436 | the new lists and the outcome, errors included |
| `PluginConfigs.UpsertMeans` | mcpd/internal/config/plugin_config.go:420-435 | an entry is stored under its name, at its old place or at the end, and nothing else changes |
| `PluginConfigs.PluginConfig.DeletePlugin` | mcpd/internal/config/plugin_config.go:439-466 | the new lists and the outcome, errors included |
| `PluginConfigs.DeleteMeans` | mcpd/internal/config/plugin_config.go:454-465 | exactly the named entry disappears |
| `PluginConfigs.DeleteUndoesCreate` | mcpd/internal/config/plugin_config.go:402-466 | deleting what an upsert created restores the list |
| `PluginConfigs.UpsertOutcomeIff` | mcpd/internal/config/plugin_config.go:402-436 | which error an upsert reports, and when it succeeds |
| `PluginConfigs.DeleteOutcomeIff` | mcpd/internal/config/plugin_config.go:439-466 | which error a deletion reports, and when it succeeds |
| `PluginConfigs.PlaceOutcomeIff` | mcpd/internal/config/plugin_config.go:753-892 | which error a placement reports, and that a single plugin is never moved |
| `PluginConfigs.ReorderOutcomeIff` | mcpd/internal/config/plugin_config.go:659-691 | a move without a placement, or in an unknown category, fails as such |
| `PluginConfigs.ToCategoryOutcomeIff` | mcpd/internal/config/plugin_config.go:696-740 | which error a move to another category reports |
| `PluginConfigs.PluginConfig.MoveAfter` | mcpd/internal/config/plugin_config.go:753-794 | the new lists and the outcome, also when the insertion panics |
| `PluginConfigs.AfterPlaces` | mcpd/internal/config/plugin_config.go:753-794 | a permutation that keeps the others' order and puts the plugin right after the target |
| `PluginConfigs.PluginConfig.MoveBefore` | mcpd/internal/config/plugin_config.go:797-837 | the new lists and the outcome |
| `PluginConfigs.BeforePlaces` | mcpd/internal/config/plugin_config.go:797-837 | the same, right before the target |
| `PluginConfigs.PluginConfig.MoveToPosition` | mcpd/internal/config/plugin_config.go:841-892 | the new lists and the outcome |
| `PluginConfigs.PositionPlaces` | mcpd/internal/config/plugin_config.go:841-892 | a permutation that keeps the others' order and puts the plugin last, or right before whoever held the requested slot |
| `PluginConfigs.PositionReachedIff` | mcpd/internal/config/plugin_config.go:879-885 | the requested slot is reached iff it is not a forward move to a slot before the last; then it is missed by one |
| `PluginConfigs.ForwardMoveFallsShort` | mcpd/internal/config/plugin_config.go:879-885 | a concrete move that reports an update and changes nothing |
| `PluginConfigs.AfterItself` | mcpd/internal/config/plugin_config.go:777-791 | placing a plugin after itself panics iff it is last, and otherwise swaps it with its successor |
| `PluginConfigs.PlacePanicsOnlyAfterItself` | mcpd/internal/config/plugin_config.go:753-892 | no other placement panics |
| `PluginConfigs.PluginConfig.MoveToCategory` | mcpd/internal/config/plugin_config.go:696-740 | the new lists and the outcome, also when source and target are one list |
| `PluginConfigs.ToCategoryMeans` | mcpd/internal/config/plugin_config.go:696-740 | the plugin leaves the source, joins the end of the target, and only an overwritten namesake is lost |
| `PluginConfigs.IntoOwnCategory` | mcpd/internal/config/plugin_config.go:728-737 | a forced move into the same category panics for the last plugin and loses the next one otherwise |
| `PluginConfigs.PluginConfig.MovePlugin` | mcpd/internal/config/plugin_config.go:659-691 | the combined move; of several given placements before wins over after, and after over position |
| `PluginConfigs.FailedMoveIsHalfDone` | mcpd/internal/config/plugin_config.go:659-691 | in every configuration with distinct names, a combined move fails and leaves a change iff the plugin is there, may enter the other list (or leave a successor behind in its own), finds other plugins, and is placed at a missing target or an invalid position |
| `PluginConfigs.HalfDoneMove` | mcpd/internal/config/plugin_config.go:659-691 | a concrete move that changes both lists and reports an error |
| `PluginConfigs.CombinedMovePlaces` | mcpd/internal/config/plugin_config.go:659-691 | a combined move that goes well leaves the old list and ends right before or after its target in the new one |
| `PluginConfigs.ErrorChangesNothing` | mcpd/internal/config/plugin_config.go:402-892 | a single operation that reports an error has changed nothing |
| `PluginConfigs.RunKeepsDistinct` | mcpd/internal/config/plugin_config.go:402-892 | over every sequence of operations that does not panic names stay distinct in each category |
| `PluginConfigs.HarmlessRunsAreSafe` | mcpd/internal/config/plugin_config.go:402-892 | no sequence panics that neither places a plugin after itself nor forces one into its own category |
| `Durations.String` | mcpd/internal/config/daemon_config.go:694-722 | the loop with truncating division prints what the specification prints |
| `Durations.PrintsLargestUnit` | mcpd/internal/config/daemon_config.go:694-722 | the text is a whole number of a unit, and no larger unit divides the duration |
| `Durations.PrintsAs` | mcpd/internal/config/daemon_config.go:694-722 | hours, minutes, seconds, milliseconds, microseconds or nanoseconds, whichever first divides the duration |
| `Durations.UnitIsWorth` | mcpd/internal/config/daemon_config.go:1269-1275 | the unit texts that parsing knows and what they are worth |
| `Durations.SumsAreRead` | mcpd/internal/config/daemon_config.go:1269-1275 | a sum of numbers with units is read as the sum of what they are worth |
| `Durations.FractionAdds` | mcpd/internal/config/daemon_config.go:1269-1275 | digits behind a point add their share of the unit, and zeros nothing |
| `Durations.BareNumberIsRefused` | mcpd/internal/config/daemon_config.go:1269-1275 | a number without a unit is refused, unless it is zero |
| `Durations.RoundTrip` | mcpd/internal/config/daemon_config.go:694-732 | parsing the printed text gives back every 64-bit duration |
| `Durations.ParsedFits` | mcpd/internal/config/daemon_config.go:1269-1275 | whatever text is parsed, also with decimal points, the result fits into 64 bits |
| `Durations.LeadingIntReads` | mcpd/internal/config/daemon_config.go:1269-1275 | the early overflow checks reject exactly the numbers above 2^63 |
| `Durations.PrintingIsInjective` | mcpd/cmd/daemon.go:597-609 | different configured timeouts stay different on their way through text |
| `Exports.ExportArgs` | mcpd/internal/runtime/server.go:292-326 | the exported arguments and the contract: required ones first, then the runtime ones that are new |
| `Exports.ExportFlagArgs` | mcpd/internal/runtime/server.go:413-463 | the look-ahead loop over runtime flags |
| `Exports.ExportRuntimeArgs` | mcpd/internal/runtime/server.go:466-486 | numbered positional placeholders followed by the new flags of the filtered arguments |
| `Exports.FilterArgs` | mcpd/internal/runtime/server.go:737-761 | exactly the arguments whose raw text is not an illegal reference |
| `Exports.PartitionArgs` | mcpd/internal/runtime/server.go:375-387 | splits at the first flag |
| `Exports.ExportEnvVars` | mcpd/internal/runtime/server.go:351-370 | a placeholder for every required and every runtime variable, for every map order |
| `Exports.EnvVarsToContract` | mcpd/internal/runtime/server.go:332-347 | an entry for every reference with a name, and no other |
| `Exports.Export` | mcpd/internal/runtime/server.go:488-526 | with tidy variable names every placeholder of every server is a contract key mapped to itself |
| `Exports.ExportSupplies` | mcpd/internal/runtime/server.go:151-247 | the export passes the environment, positional and boolean checks, and the value check when no name has an equals sign, whatever the runtime configuration was |
| `Exports.ValueCheckIff` | mcpd/internal/runtime/server.go:194-225 | it passes the value check iff every required name has no equals sign or is supplied by a required boolean flag that begins with the name and another equals sign |
| `Exports.ExportValidatesIff` | mcpd/internal/runtime/server.go:250-289 | it passes the whole validation iff it passes the value check in this sense and no volume is required |
| `Exports.FlagsExportedOnce` | mcpd/internal/runtime/server.go:413-463 | every new runtime flag name is exported exactly once, and no required or earlier name again |
| `Exports.VariableNameIs` | mcpd/internal/runtime/export_arg_transform.go:19-50 | the name of a variable is the application, the server and the argument in upper case with underscores for dashes |
| `Exports.RequiredPositionalAs` | mcpd/internal/runtime/server.go:295-303 | a required positional argument becomes a placeholder with its name |
| `Exports.RuntimePositionalAs` | mcpd/internal/runtime/server.go:389-410 | the others become placeholders that are numbered from one |
| `Exports.ValueAs` | mcpd/internal/runtime/export_arg_transform.go:24-70 | a value becomes a placeholder that carries the name of its flag without dashes |
| `Exports.JoinedFlagGoesOn` | mcpd/internal/runtime/server.go:433-441 | a new flag with its value in it is exported with a placeholder |
| `Exports.FlagWithValueGoesOn` | mcpd/internal/runtime/server.go:443-452 | a new flag with its value behind it is exported with a placeholder, and the value is skipped |
| `Exports.BareFlagGoesOn` | mcpd/internal/runtime/server.go:454-457 | a new flag without a value is exported as it is |
| `Exports.FilteredAre` | mcpd/internal/runtime/server.go:737-761 | the arguments that stay are those whose raw text is no illegal reference, in order |
| `Exports.ExportedContextIs` | mcpd/internal/runtime/server.go:488-526 | name, variables and emptiness of the rest of an exported context |
| `Exports.ValuesDoNotLeak` | mcpd/internal/runtime/server.go:413-463 | flag lists that differ only in values are exported alike; what starts with two dashes is no value |
| `Exports.ExportHidesValues` | mcpd/internal/runtime/server.go:292-370 | servers with the same entry, the same variable names and filtered arguments of the same shape have the same export and contract, whatever their values |
| `Exports.EnteredUnderItsNameIff` | mcpd/internal/runtime/server.go:335-344 | a variable's placeholder is entered under its own name iff the name does not end in white space |
| `Genetic.BudgetGenome.Mutate` | genetic_budget_engine.py:52-56 | a mutation leaves the ceiling or shifts it by what was drawn, within 0.05 and 3.00 |
| `Genetic.Crossover` | genetic_budget_engine.py:58-67 | a child is the drawn blend of its parents or the fitter of them, and lies between them as far as the bounds allow |
| `Genetic.PeakFitness` | genetic_budget_engine.py:92-107 | fitness peaks at 2.50 under critical load and at the baseline otherwise |
| `Genetic.DdosPrefersLower` | genetic_budget_engine.py:84-90 | under a DDoS pattern a ceiling is fitter iff it is lower |
| `Genetic.FitnessIs` | genetic_budget_engine.py:77-107 | the score in each kind of traffic; only in normal traffic is it ever cut off at zero |
| `Genetic.SortByFitness` | genetic_budget_engine.py:152-153 | a permutation, fittest first |
| `Genetic.SeedPopulation` | genetic_budget_engine.py:126-135 | twelve genomes with the ceilings that the draws determine: four around the baseline, eight across the bounds |
| `Genetic.SeedIs` | genetic_budget_engine.py:126-135 | four seeds are the baseline shifted by their draws, eight are spread over 0.05 to 3.00 |
| `Genetic.SeedsInRangeIff` | genetic_budget_engine.py:126-135 | the seeds are within the bounds iff the unbounded draws lie between -1.95 and 1.00 |
| `Genetic.Engine.constructor` | genetic_budget_engine.py:119-124 | a new engine holds the baseline ceiling and a full population |
| `Genetic.Engine.Evolve` | genetic_budget_engine.py:144-172 | the new generation is, for some ranking of the ceilings, its first two and the children that the draws determine; so the best is at least as fit as all of them, and all others are within bounds |
| `Genetic.ChildIs` | genetic_budget_engine.py:137-172 | a child's parents each won their pair; it is their blend or the fitter one, shifted by its mutation, within the bounds |
| `Genetic.Engine.Tick` | genetic_budget_engine.py:174-187 | after six generations the chosen ceiling is at least as fit as every ceiling at the start, and a population within bounds stays there |
| `Genetic.RoundIsNearest` | genetic_budget_engine.py:188 | the shown ceiling is the nearest multiple of 0.0001, halves to even |
| `Genetic.FittestIsLowest` | genetic_budget_engine.py:84-90 | under a DDoS pattern being the fittest is being no greater than any other ceiling |

## Left out

- Floating point rounding and the wall clock: times and the genetic engine's numbers are reals, and the wall clock is a parameter of each call.
- Processes, gRPC, HTTP, Docker, files, TOML, logging and flags of the command line: whether launches and closes go well is an argument of each call, and verdicts of pings and answers of plugins are arbitrary.
- Case mapping beyond ASCII, and strings that are not valid UTF-8.
- Daemons.Daemon.ReloadServers: the outcome is stated for normalized names and a state in which only configured servers run, which startup and every reload establish; `Registry.RegistrationAgreesIffNormalized` shows why names must be.
- Daemons.Daemon.StartServers: a failed startup ends the daemon, and stopping what had started by then is not modelled; for names that are not distinct and normalized only the account of started and failed servers is stated.
- RegistryRaces.RunKeepsInv: one reload thread and any number of pings; the launch and the closing of processes are not steps.
- Settlement.StreamingGenerator: a script fixes how the first callback ends; a second cancellation inside `on_incomplete` called from the finally clause, and callers that throw into the generator, are not modelled.
- Failover.IterateStreamingAttempts: each attempt's behaviour is fixed in advance; time passes only as a time-out outcome, and streams are values with a cursor rather than objects that suspend.
- Sanitizer.Sanitize: the document is a value that is rebuilt, so updates in place, sharing of nodes and the state after a ValueError are not captured.
- SpecFilter.FilterSpec: paths and schemas are assumed to be dictionaries, and the sorted order of the kept schemas is not recorded.
- Handshake.FlagMeansOnePhase: the handler is followed only while the main loop runs; sending after the channel has been closed is not modelled.
- Pipelines.Pipeline.HandleRequest: capabilities are fixed per plugin instead of cached on first use, answers depend only on plugin and message, and shutdown is left out.
- PluginConfigs.PluginConfig.MovePlugin: lists are values held by the object; Go slices that share a backing array with other holders are not modelled.
- Durations.RoundTrip: what the digits after a decimal point add is an arbitrary function, because the library computes it with floating point numbers; nil durations are left out.
- Exports.ValueCheckIff: names with an equals sign are covered when the required flags start with two dashes and no name contains a placeholder after its equals sign.
- Exports.Export: upper-casing is ASCII, saving the file is left out, and what counts as a reference to another server is an arbitrary predicate.
- Genetic.SortByFitness: the order of equally fit genomes is left open, so every stable or unstable choice is covered; how likely each draw is is not modelled.
- Genetic.Engine.Tick: the reported mode, colour and fitness figures are left out; `Round4` rounds reals, halves to even.
- `RemoveMatchingFlags`, configuration getters and setters, option parsing, migrations, printers, demo programs and telemetry: they would add easy members only.

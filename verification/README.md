# Verification of the lynx SQL base plugin

This project models the SQL plugin base of lynx-sql-sdk (`base/`) and proves what it promises about its
connection pools, its background components and its counters. `dafny verify dfyconfig.toml` checks all of it.

## The plugin as a step machine

`PluginMachine` is the plugin under concurrency. A state holds `closing`, `connected`, `db`, the plugin context,
the component pointers, the locks `lifecycleMu` and `mu`, what the metrics recorder and the runtime were told,
the record of every pool (opened, verified, closed, published, replaced, overwritten), and one program counter
per goroutine. Any number of callers may be inside Startup, Reconnect, Cleanup, GetDB, GetValidatedConn,
CheckHealth, ReportHealth, IsConnected, GetStats and the setters at once, beside the component goroutines, the
warmup goroutine, the stats reporter and the two phases of Cleanup. One step is one atomic load or store, one
lock operation, one driver call, or one access under the protecting lock; a writer of `mu` first announces
itself, which keeps new readers out, and then waits for the readers inside, as `sync.RWMutex` does. Whether a
driver call succeeds, a context has expired, a cached validation is recent, or the attempts limit allows a
Reconnect, is an input of the step. Closing a pool marks it closed whether or not `Close` reports an error.

| function of `PluginMachine` | source |
|---|---|
| `NextStartup`, `NextPublish` | `base/base_plugin.go:262-428`, `1048-1096` |
| `NextReconnect` | `base/base_plugin.go:1048-1066` |
| `NextConnect` | `base/base_plugin.go:454-575` |
| `NextAnnounce`, `NextSetting` | `base/resource_contract.go:17-73` |
| `NextProbe`, `NextGet`, `NextValidate` | `base/base_plugin.go:699-791`, `949-979` |
| `NextHealth`, `NextCheck`, `NextStats` | `base/base_plugin.go:832-937`, `983-1008` |
| `NextWarm` | `base/base_plugin.go:1105-1141`, `1172-1187` |
| `NextCleanup`, `NextStopping`, `NextWaiting`, `NextShutting` | `base/base_plugin.go:591-683` |
| `NextIdle` | the `run` loops of the components, `base/auto_reconnect.go:70-89` and its siblings |

The proof has layers. `PluginLocks` shows that the locks are held by whom the program counters say. What the
holder of `lifecycleMu` does is abstracted in `PluginInvariant` to a phase and a dozen moves between phases; the
inductive invariant is stated and kept over those, and every action of the machine is shown to be such a move.
`PluginLocal` adds what each goroutine knows on its own and the books of the recorder and the runtime.
`PluginReachable` puts the invariant together and carries it over runs. The remaining `Plugin*` modules are the
theorems, which speak of all runs (`IsRun`) of any length, with any number of goroutines. Where a theorem says
that something can happen in a continuation, `PluginDriven`, `PluginOvertaking` and `PluginStragglers` build that
continuation for any run; `PluginScenarios` has runs, from the initial state, to the situations in which the code
does not do what is documented.

`PluginValidation` lays the record of validations (`lastPingTime`) over the machine: a goroutine that has found a
pool good stores the record in an action of its own, and anything may happen before it does. It has the pool the
record is of, and not the time.

`PluginSequential` is the plugin as a class, as one goroutine sees it when no other runs; it has the clock and
the five-second validation cache that the machine leaves out. What a call comes to there, in all fields, is one
value (`Effect`), and case lemmas say what that is in terms of the call's inputs. `PluginSimulation` ties the two
models together: whatever PluginSequential says a call comes to, the machine has a run in which that call,
undisturbed, comes to the same.

## The other components

* `ConnectRetry`: `connectWithContext` and the retry loop, with back-off, counters and release paths.
* `WaitAccounting`: what interval deltas say about counters that restart when the pool is replaced. A sample
  carries the number of the pool it is from, which the monitors do not see.
* `PoolMonitor`, `LeakDetector`, `AutoReconnector`, `HealthChecker`: the components' tick functions as classes,
  each tied to a function of the whole history of ticks about which the properties are proved.
* `StopProtocol`: the Start/Stop protocol the four components share, as a step machine.
* `Warmup`: one pass of the pool warmup against a pool that prefers its idle connections.

Times are whole nanoseconds, usage ratios and the back-off multiplier are exact.

## Where the code and its documentation part

* Cleanup: "the pool is still released eventually" (`base/base_plugin.go:587-590`) holds exactly when the second
  phase was begun (`PluginRelease.ReleasedExactlyByPhase2`). A context that expires before leaves the pool open
  for good, since every later Cleanup returns nil at once (`PluginRelease.AbandonedForGood`, and
  `PluginScenarios.AbandonedPoolStaysOpen` for a run).
* `PoolThresholds.AlertCooldown`, "minimum time between alerts" (`base/pool_monitor.go:36`), is that exactly when
  it is at most 30 seconds: a critical alert after a warning or after a quiet tick needs only 30 seconds
  (`PoolMonitor.CooldownIsMinimum`). For a shorter cooldown the 30 seconds delay such an alert instead.
* Warmup logs success with its target; the target is reached exactly when no connection was idle or there were
  that many already, because a pass first takes the idle ones (`Warmup.TargetReached`).
* GetDBWithContext can return a nil pool with a nil error while the plugin is shutting down, exactly when it
  reads `db` after the close phase (`PluginHandout.NilExactlyWhenShut`), and GetValidatedConn then dereferences
  it (`PluginHandout.CrashExactlyAfterClose`); `PluginScenarios.NilDereferenced` is a run that gets there.
* The first retry waits for the initial delay times the multiplier, not for the initial delay.
* A Startup over a pool that is only disconnected overwrites it without closing it, and it stays open
  (`PluginTheorems.LeaksExactly`, `OrphanStaysOpen`, and `PluginScenarios.SecondStartupLeaks` for a run); Startup
  looks at `connected`, not at `db`.
* Cleanup: "each Stop() blocks until its goroutine has exited" (`base/base_plugin.go:603`), and the pool is closed
  after that. All background goroutines have then exited exactly when `PluginHeldBack.SafeToClose` holds at the
  moment Cleanup wins the compare-and-swap: at most one Startup has stored components, or none are configured; and
  no Startup may still start anything. A second Startup that succeeds overwrites the four component pointers
  (`base/base_plugin.go:402-407`), Cleanup stops those it reads (607-626), and nothing waits for the goroutines of
  the first, which only the cancelled context tells to stop; a Startup past its check of `closing` starts its
  goroutines when the first phase may be over. There is one exception: a Startup with only its leak detector left to start,
  whose auto-reconnector waits for `lifecycleMu`, holds the first phase back. `PluginStragglers.WorkersGoneExactly`
  is the equivalence, `PluginScenarios.OverwrittenComponentLives` and `LateComponent` are runs.
* "Use cached ping result if recent" (`base/base_plugin.go:962`): the cached result need not be of the pool that is
  asked about. A goroutine that has read `db`, and has found that pool good or is on its way to ask it, records the
  validation even after a Reconnect has replaced and closed the pool (`PluginStaleRecord.StaleRecord`);
  `PluginValidation.RecordStaysExactly` says exactly when that cannot happen.
* Stop waits for the worker exactly when Start has been called (`StopProtocol.QuietExactly`).
* The runtime's private "db" resource is not withdrawn on shutdown (`PluginReconnect.AnnouncedIsPublished`).

## Model

| member | source | states |
|---|---|---|
| PluginTheorems.MutualExclusion | base/base_plugin.go:268-321 | no two goroutines are ever both inside an operation under `lifecycleMu`, nor one inside a write section of `mu` and another inside a write or read section |
| PluginInvariant.MoveInv | base/base_plugin.go:1048-1096 | every abstract move of a lifecycle operation keeps pool conservation, the facts about the candidate and about `db`, the shutdown facts and the history |
| PluginInvariant.StoreInv | base/base_plugin.go:315-321 | storing a verified candidate keeps the invariant: the stored pool is newer than all of the history, the predecessor moves into the hand of the Reconnect or among the overwritten pools |
| PluginReachable.StepInv | base/base_plugin.go:262-1096 | every enabled action of every goroutine keeps the whole invariant |
| PluginReachable.RunInv | base/base_plugin.go:262-1096 | every state of every run satisfies it |
| PluginTheorems.PoolsConserved | base/base_plugin.go:268-321 | whenever no goroutine is inside a write section of `mu` (one that only waits for readers is not) the open pools are exactly the published one, the one in the lifecycle holder's hand and the overwritten ones, each in one role, at most two besides the overwritten; no pool is ever closed twice |
| PluginTheorems.OrphansExactly | base/base_plugin.go:315-321 | the set of overwritten pools is non-empty if and only if some Startup stored its pool while `db` was not nil |
| PluginTheorems.LeaksExactly | base/base_plugin.go:271-321 | between lifecycle operations a pool is open that is not the published one if and only if some Startup passed its guards while `db` was not nil and went on to store its pool |
| PluginTheorems.GuardsSeeDisconnected | base/base_plugin.go:271-276 | a Startup that passes its guards has found `connected` false, and it is false still |
| PluginTheorems.OrphanStaysOpen | base/base_plugin.go:315-321 | an overwritten pool is never closed and never published again, in any later state |
| PluginTheorems.StartsOverSeen | base/base_plugin.go:268-321 | `db` does not change between a lifecycle operation's guards and its store, so what it overwrites is what it saw |
| PluginTheorems.PublishedPoolIsGood | base/base_plugin.go:490-524 | the published pool passed ping and verify query and is the last of the history; `db` is nil only before the first publication and after the close phase; whenever no goroutine is inside a write section of `mu`, `connected` implies a pool, and the published pool is not closed |
| PluginTheorems.StatsSampleOpenPool | base/base_plugin.go:983-991 | GetStats never samples nil or a pool the plugin has closed |
| PluginChecks.SamplesWhenConnected | base/base_plugin.go:983-989 | GetStats samples only in a read section in which it has found `connected` true and after that `closing` false and a pool |
| PluginChecks.QueriesWhenConnected | base/base_plugin.go:833-857 | ReportHealth asks only a pool that it has read from `db`, having then found `connected` true and after that `closing` false |
| PluginChecks.ProbesWhenConnected | base/base_plugin.go:949-962 | IsConnectedContext comes to its cache only after it has found `connected` true, then `closing` false, then that pool in `db` |
| PluginChecks.FillsWhenConnected | base/base_plugin.go:1115-1182 | the warmup fills a pool only after it has found `closing` false, then `connected` true, then that pool in `db` |
| PluginChecks.ReconnectsWhenDown | base/auto_reconnect.go:98-118 | the AutoReconnector reconnects only after the IsConnected of the same tick has found the plugin disconnected, closing or without a pool, or has marked it as disconnected |
| PluginChecks.ExitsWhenTold | base/auto_reconnect.go:70-89 | a component, the warmup and the stats reporter end only once the plugin's context is cancelled, or, a component, its own channel closed |
| PluginGivenUp.GivenUpIsNeverPublished | base/base_plugin.go:307-511 | a pool that does not answer its ping or its verify query, or that is connected when the context of the Startup is done, is in no later state published, and is closed exactly once, by the next action of the goroutine that opened it |
| PluginTheorems.SamplesNeverGoBack | base/base_plugin.go:983-991 | whoever samples later samples the same pool or one opened later, which is what WaitAccounting assumes of its generations |
| PluginTheorems.HistoryIncreases | base/base_plugin.go:315-321 | no pool is published twice; pools are published in the order of their opening |
| PluginShutdown.OneWinner | base/base_plugin.go:597-599 | among all Cleanup calls of a run at most one wins the compare-and-swap, and once one was tried, one has won |
| PluginShutdown.AtMostOneLatePool | base/base_plugin.go:1053-1057 | after `closing` is set no further pool is published, except one if the holder of `lifecycleMu` was already past its check |
| PluginShutdown.ShutdownIsTerminal | base/base_plugin.go:640-662 | once the winning Cleanup returns nil, then and in all later states `db` is nil, `connected` false, every pool not overwritten closed exactly once, and no pool is opened any more |
| PluginRelease.ReleasedExactlyByPhase2 | base/base_plugin.go:591-662 | in a state at rest everything is released if and only if phase two was begun; if it was not, the published pool is open |
| PluginRelease.AbandonedForGood | base/base_plugin.go:616-638 | if the winner's context expires before phase two, the published pool stays published and open in every continuation, whatever is called |
| PluginRelease.OnePastRun | base/base_plugin.go:597-638 | there is one Cleanup past the compare-and-swap, and no phase two before it has got there |
| PluginProgress.Progress | base/base_plugin.go:601-647 | from any goroutine in the middle of an operation a chain in which each waits for the next, in falling rank, leads to one that can go |
| PluginProgress.WaitingBlocks | base/base_plugin.go:601-647 | waiting in that sense is real: who waits for another has no step, except that a Cleanup awaiting a phase may find its context expired |
| PluginProgress.DeadlockFree | base/base_plugin.go:268-269 | in every reachable state every operation under way can go on, or waits along such a chain for a goroutine that can, with no new call, failure or expiry |
| PluginTermination.EveryActionCounts | base/base_plugin.go:527-575 | every action that is not a new call or tick lowers what all goroutines together have left to do, whatever the driver answers and whichever contexts expire |
| PluginTermination.OperationsEnd | base/base_plugin.go:527-575 | so a run without new calls and ticks is no longer than what was left to do when they stopped |
| PluginTermination.ComesToRest | base/base_plugin.go:591-662 | every run can be continued without new calls until no operation, phase or tick is under way |
| PluginTermination.StuckMeansAtRest | base/base_plugin.go:268-269 | a reachable state from which no goroutine can go is one with nothing under way |
| PluginStragglers.WorkersGoneExactly | base/base_plugin.go:389-642 | at the moment a Cleanup wins: in every continuation all component and warmup goroutines have exited once the pool is closed, if and only if at most one Startup has stored components (or none are configured) and no Startup may still start anything, other than one that holds phase one back |
| PluginHeldBack.GoneWhenSafe | base/base_plugin.go:601-642 | the one half: under that condition, at every later instant at which the close phase has emptied `db`, all of them have exited |
| PluginStragglers.UnsafeToClose | base/base_plugin.go:389-642 | the other: without it some continuation comes to rest, no call or phase under way, with the pool closed and such a goroutine left |
| PluginHeldBack.CoveredExactly | base/base_plugin.go:402-407 | before a shutdown the running components are all published ones if and only if at most one Startup has stored components, or none are configured: it is the second that breaks it |
| PluginComponents.LedgerRun | base/base_plugin.go:347-418 | in every reachable state the published components are distinct and of the last Startup that stored any, the running ones of some Startup that did, what a Startup has yet to start it has stored and not started, and until a shutdown the first component of the first such Startup runs or is about to be started |
| PluginWorkers.WorkersGoneBeforeClose | base/base_plugin.go:601-642 | if the winner finds no Startup that may still start anything, and every running component is one of the published ones, then every component and warmup goroutine has exited before phase two touches the pool |
| PluginWorkers.OneStartupIsCovered | base/base_plugin.go:389-407 | with at most one Startup that stored its components, every running component is one that Cleanup sees |
| PluginWorkers.GoneAfterOneStartup | base/base_plugin.go:389-407 | so after at most one such Startup, and none that may still start anything, all of them have exited before phase two |
| PluginRoles.OnlyAutoReconnectorReconnects | base/health_checker.go:17-21 | no background goroutine but an AutoReconnector's ever enters a lifecycle operation; the most it does to the pools is clear `connected` |
| PluginReconnect.FailedReconnect | base/base_plugin.go:1065-1081 | a Reconnect that fails, whatever its connects met, has since its snapshot left `db` the same open pool and `connected` false, and every pool opened since is closed |
| PluginReconnect.ClosesItsPredecessor | base/base_plugin.go:1083-1091 | the pool a Reconnect closes is the predecessor of the published one, still open, and no longer published |
| PluginReconnect.ReplacedOrOverwritten | base/base_plugin.go:1083-1091 | between Reconnects every pool of the history but the last was closed by a Reconnect or overwritten by a Startup, exactly one of the two, once |
| PluginReconnect.ReplacedAreThePast | base/base_plugin.go:1083-1091 | without overwriting Startups the pools Reconnects closed are the publication history without its last element, in order |
| PluginReconnect.MetricsConserved | base/base_plugin.go:456-524 | attempts = successes + failures + cancelled retry loops + the one in flight; successes = publications + pools a cancelled Startup discarded + the one in hand |
| PluginRetries.RetriesBounded | base/base_plugin.go:527-575 | in every reachable state the recorder was told of at most the configured number of retries for each attempt, and of none outside retry mode |
| PluginReconnect.AnnouncedIsPublished | base/resource_contract.go:32-59 | between lifecycle operations the runtime's private pool is the published one; after shutdown it is a closed one |
| PluginHandout.HandedOutWasPublished | base/base_plugin.go:699-748 | what GetDBWithContext returns without error was the published pool at some instant of the call, or is nil, and then `closing` is set and the close phase has emptied `db` |
| PluginHandout.NilExactlyWhenShut | base/base_plugin.go:721-738 | its read of `db` finds nil if and only if the close phase has emptied it |
| PluginHandout.CrashExactlyAfterClose | base/base_plugin.go:753-758 | when GetValidatedConn asks the pool it was handed for a connection, it dereferences nil if and only if its last read of `db` came after the close phase |
| PluginHandout.CrashOnlyWhenShut | base/base_plugin.go:753-758 | no goroutine has dereferenced nil before the close phase |
| PluginValidation.Projects | base/base_plugin.go:522-977 | a run with records is, without them, a run of the machine, so that everything proved of those holds of it |
| PluginValidation.Lifts | base/base_plugin.go:522-977 | every run of the machine is a run with records, each stored at once |
| PluginValidation.RecordWasVerified | base/base_plugin.go:522-977 | whatever is recorded, at any interleaving, is a pool that has passed ping and verify query |
| PluginValidation.RecordStaysExactly | base/base_plugin.go:315-321 | when a Startup or Reconnect has recorded the pool it published, the record is of the published pool; in every continuation until the next pool is opened it stays so, if and only if no goroutine has found another pool good, or may still do so with what it has read |
| PluginStaleRecord.StaleRecord | base/base_plugin.go:834-865 | a run: a health check is about to ask its pool, a Reconnect replaces and closes that pool, and the health check records its validation |
| PluginSolo.AloneHandsOutCurrent | base/base_plugin.go:699-748 | if no other goroutine acts during the call, GetDBWithContext hands out the current pool, not nil and connected, after at most two Reconnects |
| PluginScenarios.StartupSucceeds | base/base_plugin.go:262-428 | an undisturbed Startup with a willing driver reaches its return with the new pool published, from every state with free locks, `connected` and `closing` false |
| PluginScenarios.SecondStartupLeaks | base/base_plugin.go:271-321 | a run: Startup, a failed health check, Startup; two pools are open and one is published |
| PluginScenarios.AbandonedPoolStaysOpen | base/base_plugin.go:616-634 | a run that ends with a Cleanup whose context expired before phase two: `closing` is set, nothing is under way, the pool is open |
| PluginScenarios.NilHandedOut | base/base_plugin.go:699-748 | a run in which GetDBWithContext is about to return nil without an error |
| PluginScenarios.NilDereferenced | base/base_plugin.go:753-758 | a run in which GetValidatedConn dereferences nil |
| PluginScenarios.LateComponent | base/base_plugin.go:389-418 | a run in which a Startup past its check, already connected, starts a component after Cleanup's first phase is over |
| PluginScenarios.OverwrittenComponentLives | base/base_plugin.go:402-407 | a run: Startup, a failed health check, Startup, Cleanup with both phases; the published pool is closed and the first pool monitor has not returned |
| PluginPassive.OnePoolOnly | base/base_plugin.go:705-708 | with auto-reconnect off, one Startup and no explicit Reconnect, `db` is nil, one pool, nil, over the whole run |
| PluginPassive.DisconnectedForGood | base/base_plugin.go:732-735 | in such a run `connected`, once false after publication, is never true again |
| PluginSequential.WindowInRealTime | base/base_plugin.go:963-968 | despite whole-second truncation a cached validation is under five seconds old, and one at most four seconds old is always used; the exact edge |
| PluginSequential.WindowEdges | base/base_plugin.go:963-968 | both tests of the window, in nanoseconds of the clock and without truncation |
| PluginSequential.WindowsAgree | base/base_plugin.go:1017-1023 | the handout's test and the cache's agree if and only if a validation was recorded or the clock is past the first five seconds of the epoch |
| PluginSequential.Plugin.StartupTasksContext | base/base_plugin.go:262-321 | exactly when it succeeds, when it connects, and all that then changes; a pool discarded after its connect is closed, and its validation stays recorded |
| PluginSequential.Plugin.CleanupTasks | base/base_plugin.go:591-662 | the first call closes the published pool and clears the fields, any other changes nothing |
| PluginSequential.Plugin.ReconnectContext | base/base_plugin.go:1048-1096 | success leaves a new usable pool and closes exactly its predecessor; failure leaves the pool, and `connected` false exactly if a connect was tried or it was false |
| PluginSequential.Plugin.IsConnectedContext | base/base_plugin.go:949-979 | true if and only if connected, not closing, and cached or the ping succeeds, and pinged if and only if it is not cached; a positive answer means a usable pool validated under five seconds ago or just now; a reading at most four seconds old is never pinged again |
| PluginSequential.Plugin.GetDBWithContext | base/base_plugin.go:699-748 | what it comes to in all fields, `connected` after every failure among them; a pool handed out is the current, open, connected one, validated under five seconds before the handout's own check, or without that check under five seconds before the first one or by the Reconnect; at most two Reconnects, none and no replacement with auto-reconnect off |
| PluginSequential.LiveHandout | base/base_plugin.go:705-748 | case by case in its inputs, the answer, Reconnects, replacements, `connected` and last validation of a handout of a plugin that is connected and cached or answering |
| PluginSequential.DeadHandout | base/base_plugin.go:705-748 | the same for one that is disconnected, closing or not answering: with auto-reconnect and a connect that succeeds the new pool is handed out |
| PluginSequential.HandedIsRecent | base/base_plugin.go:1017-1023 | the age of the validation behind a handout, for every way to it |
| PluginSequential.Plugin.GetDB | base/base_plugin.go:691-693 | with a context that is never done: the new pool after one Reconnect when the plugin is down or its probe fails, the old one when the probe is cached or answers, and after a failed handout ping the new one or an error with `connected` false |
| PluginSequential.FreshHandout | base/base_plugin.go:963-968 | a connected plugin with a fresh validation hands out without a ping and without a Reconnect |
| PluginSequential.PassiveHandout | base/base_plugin.go:705-735 | with auto-reconnect off a handout succeeds if and only if the plugin is live and, where a ping is due, answers it |
| PluginSequential.Plugin.GetValidatedConn | base/base_plugin.go:753-791 | what it comes to in all fields; a connection returned is of the current usable pool; at most five Reconnects |
| PluginSequential.FirstConnection | base/base_plugin.go:758-791 | what it makes of its first handout, by whether it gets a connection, whether that answers, and how the Reconnect in between ends |
| PluginSequential.BadConnection | base/base_plugin.go:761-791 | in its inputs, for a connected plugin with a fresh validation whose first connection does not answer |
| PluginSequential.Plugin.CheckHealthContext | base/base_plugin.go:876-937 | what it comes to in all fields; with auto-reconnect off `connected` is then true exactly if it passed, or was true before while closing; a passed check leaves a usable pool validated by the check's last query; at most two Reconnects |
| PluginSequential.LiveCheck | base/base_plugin.go:884-937 | case by case in its inputs, what a check of a connected and answering plugin comes to |
| PluginSequential.DeadCheck | base/base_plugin.go:884-937 | the same for a plugin that is disconnected, closing or not answering |
| PluginSequential.Plugin.ReportHealth | base/base_plugin.go:832-867 | exact outcome, and that the pool is never replaced |
| PluginSimulation.GetDBAgrees | base/base_plugin.go:699-748 | from every state of the machine with free locks, for every outcome of the pings and Reconnects of the call, an undisturbed GetDBWithContext comes to what PluginSequential says: answer, `connected`, `db` and pools opened |
| PluginSimulation.GetValidatedConnAgrees | base/base_plugin.go:753-791 | the same for GetValidatedConn |
| PluginSimulation.CheckHealthAgrees | base/base_plugin.go:876-937 | the same for CheckHealthContext |
| PluginSimulation.IsConnectedAgrees | base/base_plugin.go:949-979 | the same for IsConnectedContext |
| PluginSimulation.ReportHealthAgrees | base/base_plugin.go:832-867 | the same for ReportHealth |
| PluginSimulation.ReconnectAgrees | base/base_plugin.go:1048-1096 | the same for ReconnectContext, with retries or without |
| PluginSimulation.StartupAgrees | base/base_plugin.go:262-321 | the same for StartupTasksContext up to the publication of its pool |
| PluginRetryLoop.RetriesAgree | base/base_plugin.go:527-575 | for every sequence of outcomes and expiries, one round each, the undisturbed retry loop of the machine ends with the answer after the connects that ConnectRetry has for them, and tells the recorder the same retries and outcome |
| ConnectRetry.DelayIsCappedPower | base/base_plugin.go:566-570 | for whole multipliers the wait before retry k is min(maxDelay, initial * multiplier^k): capping each round is capping the power |
| ConnectRetry.DelaySteps | base/base_plugin.go:566-570 | for every multiplier the next delay is the product cut off toward zero, or the maximum if that is less |
| ConnectRetry.WaitsCapped | base/base_plugin.go:566-570 | the k-th wait is the delay after k failures, and for every multiplier none is longer than the maximum |
| ConnectRetry.DelaysGrow | base/base_plugin.go:566-570 | for every multiplier of at least 1, whole or not, waits never shrink from one retry to the next |
| ConnectRetry.Connector.ConnectWithContext | base/base_plugin.go:454-525 | one connect: what it opens it closes unless it returns it, and it counts only outside retry mode |
| ConnectRetry.Connector.ConnectWithRetry | base/base_plugin.go:527-575 | at most RetryMaxAttempts+1 connects, none once the context is done at the head of a round or in its wait, none after one that succeeded; exactly when the answer is a pool, a cancellation or a failure; the waits made; retries = connects less one, or connects when cancelled in a wait; one attempt and at most one outcome counted; nothing but the answer stays open |
| WaitAccounting.NeverTooMuch | base/pool_monitor.go:164-180 | the reported waiting never exceeds the totals all pools had in the end, added up, if those are at least the totals last sampled |
| WaitAccounting.ReportedPlusMissed | base/pool_monitor.go:170-180 | reported waiting plus that of replacements no counter shows is exactly the sum of the last sampled totals of every pool |
| WaitAccounting.ExactWhenReplacementsShow | base/pool_monitor.go:173-177 | the reports equal that sum if and only if every replacement makes a counter drop or had nothing to lose |
| WaitAccounting.GrownIsSumOfLasts | base/pool_monitor.go:170-180 | the growth between samples, replacements known, is the sum of the last sampled totals of every pool |
| WaitAccounting.Telescopes | base/pool_monitor.go:170-180 | without replacement the reports add up to the last total |
| WaitAccounting.ReportsOnlyGrow | base/pool_monitor.go:170-177 | no report is negative: the sum reported only grows from sample to sample |
| WaitAccounting.NilSamplesChangeNothing | base/pool_monitor.go:165-168 | nil samples change neither the reports nor the baseline |
| WaitAccounting.LeakDetectorReportsNoMore | base/leak_detector.go:105-113 | fed the same samples the leak detector's delta is at most the monitor's, and less exactly when a replacement shows in the wait count alone |
| PoolMonitor.Monitor.constructor | base/pool_monitor.go:46-66 | default thresholds for nil, 60 seconds for a cooldown that is not positive |
| PoolMonitor.Monitor.Evaluate | base/pool_monitor.go:164-210 | in the sample's own numbers: the interval's waiting, exactly which alerts are raised and in which order, and exactly when the severity is critical |
| PoolMonitor.Monitor.CheckAndAlert | base/pool_monitor.go:117-157 | exactly when an alert is logged, by the time since the last one and the severities of both, and what is remembered; over all ticks, that this is what their history lets through |
| PoolMonitor.ChecksWhatIsReported | base/pool_monitor.go:164-183 | the waiting checked over a run is the reported waiting of WaitAccounting for the same samples |
| PoolMonitor.AlertsAreSpaced | base/pool_monitor.go:121-134 | an alert comes more than the cooldown after the one before, an escalation to critical more than 30 seconds |
| PoolMonitor.AlertRate | base/pool_monitor.go:121-134 | n alerts span more than n-1 times the shorter cooldown, for every sequence of samples and quiet ticks |
| PoolMonitor.CooldownIsMinimum | base/pool_monitor.go:36 | the configured cooldown is a minimum time between alerts over all runs if and only if it is at most 30 seconds |
| PoolMonitor.BurstsEscalateTwice | base/pool_monitor.go:124-134 | whatever the thresholds, critical, nil, critical gives two alerts 30 seconds and a nanosecond apart |
| LeakDetector.Detector.Evaluate | base/leak_detector.go:100-136 | in the sample's own numbers, exactly which warnings are given; over all samples, that the baseline is the last one's total |
| LeakDetector.WarningsAreAlerts | base/leak_detector.go:118-134 | with thresholds ordered as the defaults are, no leak warning comes without the corresponding pool alert |
| AutoReconnector.Reconnector.CheckAndReconnect | base/auto_reconnect.go:92-137 | exactly when Reconnect is called; `attempts` is 0 after a success or healthy tick, one more after a failure, and else unchanged |
| AutoReconnector.FailuresAfterReset | base/auto_reconnect.go:98-136 | over a run, `attempts` is the number of failed Reconnects after the last success or healthy tick |
| AutoReconnector.NeverExceeds | base/auto_reconnect.go:111-114 | with a limit, `attempts` never exceeds it |
| AutoReconnector.ExhaustedUntilHealthy | base/auto_reconnect.go:98-114 | once the limit is reached no Reconnect is called, until exactly the first tick that sees the target connected |
| AutoReconnector.FailureBudget | base/auto_reconnect.go:98-136 | over a run, failed Reconnects are at most the limit times the successes and healthy ticks, plus those counted now |
| HealthChecker.Checker.PerformHealthCheck | base/health_checker.go:107-132 | verdict, count of consecutive failures, the line logged on a change, and time of the last check; over all checks, that these are what their history gives |
| HealthChecker.ConsecutiveAtEnd | base/health_checker.go:113-125 | what is counted are the failed checks since the last one that passed, all of them |
| HealthChecker.LinesAlternate | base/health_checker.go:113-131 | log lines alternate between failure and recovery, end with the present verdict, and that is healthy exactly when no failures are counted |
| StopProtocol.ClosedOnce | base/auto_reconnect.go:53-67 | however many Stops run at once, the channel is closed at most once, and has been when one returns |
| StopProtocol.NoTickAfterStop | base/auto_reconnect.go:44-67 | a Stop that had not returned when Start was called returns only after the worker has exited for good |
| StopProtocol.UnseenReturn | base/auto_reconnect.go:44-67 | a Stop that returned without seeing the worker returned before Start |
| StopProtocol.QuietExactly | base/auto_reconnect.go:44-67 | at the moment a Stop returns: in no continuation a tick is under way any more, if and only if Start has been called |
| StopProtocol.StopBeforeStart | base/auto_reconnect.go:44-67 | a run in which a Stop overtakes Start and the worker ticks afterwards |
| StopProtocol.StopReturns | base/auto_reconnect.go:53-89 | every unfinished Stop always has a step, of itself, of the Stop inside Once or of the worker, that brings it nearer to its return |
| StopProtocol.ExitsForAReason | base/auto_reconnect.go:70-89 | the worker has exited only if the channel was closed, its context cancelled or a tick panicked |
| Warmup.PoolSettings.ApplyDefaultsAndValidate | base/base_plugin.go:138-201 | accepted exactly if, with defaults, 1 <= MaxIdleConns <= MaxOpenConns and 1 <= WarmupConns |
| Warmup.PoolSettings.TargetWarmConnections | base/base_plugin.go:1158-1170 | 0 if WarmupConns is not positive, else the least of it and of those of the two limits that are set; for an accepted configuration 1 <= target <= MaxIdleConns |
| Warmup.EnsureMinPoolConnections | base/base_plugin.go:1172-1227 | whatever connections others have in use: every connection acquired is given back exactly once, those of others are left alone, no acquisition waits for a free connection, the pass succeeds if and only if every connection it needs can be had and answers, and else stops at the first that cannot or does not; the idle connections a successful pass leaves are exactly max(idle, target - open) less those that turned bad |
| Warmup.TargetReached | base/base_plugin.go:1189-1210 | however many passes succeed, the target is reached if and only if no connection was idle or there were that many; at least half of it is always reached |

## Left out

- The real `database/sql` pool, drivers, DSN handling and network I/O: a pool is a number, a driver call an input.
- `base/prometheus_metrics.go`, `base/metrics.go`, `base/query_monitor.go`, the query monitor pointer, logging, error texts and wrapping, dialect names, panic recovery in worker loops other than StopProtocol's, plugin framework and configuration scanning.
- Plain getters under the read lock (`base/base_plugin.go:794-828`): readers of `mu` like GetStats.
- Tickers, timers and timeouts: a tick or an expiry may come at any step.
- Width of integers: int64 overflow of durations and counters, and float rounding of ratios and of the back-off.
- The initial context checks of the public operations (`base/base_plugin.go:264-266`, `593-595`, `701-703`): a call rejected there does nothing.
- The machine has no clock: freshness of a cached validation is a choice there, and in PluginValidation, which has the record, an answer that rests on it needs no more than that there is one. When a validation was made, if a goroutine is delayed before it reads the clock (`base/base_plugin.go:865`), is not said. PluginSequential has the clock, and no interleaving; it is a second model of the same operations, and PluginSimulation says what ties it to the first.
- PluginTermination.OperationsEnd: counts actions, not time; a driver call or callback that never returns is outside the model.
- PluginProgress.DeadlockFree: assumes that I/O returns and that runtime callbacks do not call back into the plugin.
- PluginWorkers.WorkersGoneBeforeClose: one half of PluginStragglers.WorkersGoneExactly, for a single run.
- PluginStragglers.WorkersGoneExactly: the stats reporter is not among those goroutines, as the code does not wait for it; a connect may still succeed after the plugin context is cancelled, as it may when its own context hears of that late.
- PluginReconnect.AnnouncedIsPublished: the runtime is bound before the first Startup; of the resources published only the private pool is modelled, and only while no registration was refused.
- Cleanup with a context that cannot expire runs its phases inline; the model starts and awaits them, which is the same without expiry.
- The exact retry count of one invocation is proved for the loop as a method (ConnectRetry) and for the undisturbed loop of the machine (PluginRetryLoop); over whole runs the shared counter is bounded by PluginRetries.RetriesBounded.
- PluginSimulation.GetDBAgrees: like the others of that module it gives a run, for calls that nobody disturbs; the machine's runs in which others act are the subject of the theorems above. What is recorded as validated is not in it, nor the background goroutines a Startup starts.
- ConnectRetry.Connector.ConnectWithRetry: RetryMaxAttempts is not negative, as the validated configuration has it; the driver's outcomes and the expiries of the context are given in advance, one round each.
- LeakDetector.WarningsAreAlerts: one direction; the monitor alerts on much that is no leak.
- PoolMonitor.AlertRate: the clock read for the stamp is not before the one read for the comparison.
- StopProtocol: Start is called at most once; the component mutex is held for single loads and stores only, so it is part of the steps.
- Warmup.EnsureMinPoolConnections: nobody else takes or returns a connection during the pass, connections do not expire while idle, and the pass's timeout is part of whether an acquisition succeeds.
- Warmup.PoolSettings.ApplyDefaultsAndValidate: of the configuration only the three fields the warmup depends on.

# Job kinds, run contexts and the debounced file watcher of a task runner

This project models three sequential pieces of the execution core of a
declarative task runner written in Go, and proves properties of them in
Dafny 4.11.

* **Job kinds** (`Manifest`, `manifest_job.dfy`). A job names at most one
  execution target by convention, but the manifest lets an author set
  several: `pluginName`, `taskName` and `mixinName` are optional
  (`Option<string>` stands for Go's nil-able `*string`). `Type` picks the
  first set target in the order plugin, task, mixin, and returns
  `ExecEmpty` when none is set. `FormatDescription` returns the
  description, or else scans the same three names and returns the first
  one that is set. The model keeps the first-match rule rather than
  rejecting ambiguous jobs, and proves that the name shown is the name of
  the kind `Type` selected.
* **Run contexts** (`CancelScope`, `cancel_scope.dfy`, and `JobContext`,
  `job_context.dfy`). Every dispatched job gets a `RunContext`. The
  cancellation tree of Go's `context` package is modelled as a value
  `Scope`: a map from each derived token to its parent token, a set of
  cancelled tokens, and the next token to hand out. A token counts as
  cancelled when it or one of its ancestors is cancelled. A shared
  `ContextTree` object holds that value. The result channel
  (`Channel`, a buffer with a capacity) and the wait group (`WaitGroup`, a
  counter) are objects shared by reference, as in Go. `ForkContext` shares
  the cancel scope, the channel and the wait group. `ChildContext` nests a
  new cancel scope under the source. `WithTimeout` nests a new scope and
  drops the channel and the wait group. `Result` takes effect only once
  per context. The first call sends the error into the channel. Only when
  a wait group is attached does it also mark the context finished and
  signal the wait group.
* **Debounced file watcher** (`Watch`, `watch_plugin.dfy`). The
  event loop of the watch plugin is driven by abstract inputs `FsEvent`,
  `TimerFire` and `Closed`. An event marks the loop dirty and re-arms the
  timer. A timer expiry that finds the loop dirty clears the flag, cancels
  the current child context, creates a fresh child of the plugin's
  context, and starts the job once on it. `RunLoop` is the pure
  specification of the loop. `Plugin.Call` runs the loop over the actual
  `RunContext` objects and is proved to produce exactly the state
  `RunLoop` describes; `Plugin.EventLoop` is its loop and `Plugin.Turn`
  one turn of it. The invariant `LoopInv` says that every child
  created before the current one is cancelled, so at most one child made
  by the loop is live. Because each run gets a child context of its own,
  restarting the job and tearing the watcher down never cancel the
  plugin's own context nor any other context that existed before `Call`.

Behaviour of the code worth noting, which the model keeps:

* The first `Result` signals the wait group and sets `finished` only when a
  wait group is attached. Without one, the error is sent and the context
  stays alive (`IsAlive` stays true).
* A context made by `WithTimeout` has no result channel. A send on a nil
  channel blocks forever in Go, so `Result` on such a context reports
  `Blocked`. A send into a full buffer reports `Blocked` as well (a fork
  shares its source's capacity-1 channel). In both cases only the
  once-guard changes.
* `WithTimeout` marks its context as not a child and does not copy the
  wait group.

## Model

| member | source | states |
|---|---|---|
| `Manifest.HasDescription` | manifest/job.go:52-54 | true exactly when the description is non-empty |
| `Manifest.FirstSet` | manifest/job.go:63-69 | `None` exactly when every name is unset; otherwise the result is a set name with every name before it unset (the first set one) |
| `Manifest.Type` | manifest/job.go:75-89 | `ExecPlugin` iff the plugin is set, whatever task and mixin are; `ExecTask` iff plugin unset and task set; `ExecMixin` iff plugin and task unset and mixin set; `ExecEmpty` iff all three unset |
| `Manifest.FormatDescription` | manifest/job.go:57-70 | a non-empty description is returned unchanged; with an empty description, the name of the target `Type` selected, or "" for an empty job |
| `Manifest.TypeIsHighestPriorityDeclared` | manifest/job.go:75-89 | the kind is empty iff no target is declared; otherwise it is a declared kind, and no declared kind has higher priority |
| `Manifest.LowerTargetsIgnored` | manifest/job.go:57-89 | setting or changing lower-priority targets changes neither the kind nor the formatted description |
| `CancelScope.AddRoot` | cli/tasks/tasks.go:41 | a top-level context gets a fresh token without a parent, and the tree stays well formed |
| `CancelScope.AddChild` | runner/job/context.go:45 | `context.WithCancel`: a fresh token whose parent is the source token; cancellations are unchanged and the tree stays well formed |
| `CancelScope.CancelAt` | runner/job/context.go:74 | calling a cancel function marks its token cancelled, keeping the tree's shape |
| `CancelScope.AncestorNotAbove` | runner/job/context.go:44-56 | an ancestor never has a larger token than its descendant, so derivation is acyclic |
| `CancelScope.ParentNotBelowChild` | runner/job/context.go:44-56 | a parent is never a descendant of its child |
| `CancelScope.CancelAtCancels` | runner/job/context.go:68-75 | after cancelling `t`, a token is cancelled iff it was already cancelled or `t` is itself or an ancestor of it |
| `CancelScope.AddChildPreserves` | runner/job/context.go:44-56 | creating a child changes neither the cancellation nor the ancestry of any existing token |
| `CancelScope.AddRootPreserves` | cli/tasks/tasks.go:41 | creating a root changes neither the cancellation nor the ancestry of any token |
| `CancelScope.AddRootIsLive` | cli/tasks/tasks.go:41 | a new root context is not cancelled |
| `CancelScope.ChildStartsAsParent` | runner/job/context.go:44-56 | a new child is cancelled exactly when its parent already is |
| `CancelScope.ChildCancelSparesOthers` | runner/job/context.go:44-56 | cancelling a new child never cancels its parent or any other token that existed before it |
| `CancelScope.CancelSparesBelow` | runner/job/context.go:68-75 | cancelling a token leaves the cancellation of every smaller token, none of which descends from it, as it was |
| `CancelScope.CancelReachesDescendants` | runner/job/context.go:68-75 | cancelling a token cancels every descendant |
| `CancelScope.CancelledStaysCancelled` | runner/job/context.go:44-75 | a cancelled token stays cancelled when further tokens are created or cancelled |
| `JobContext.ContextTree.Background` | cli/tasks/tasks.go:41 | the shared tree gains a fresh, uncancelled root token |
| `JobContext.ContextTree.WithCancel` | runner/job/context.go:45 | the shared tree gains a child of `p`, and the child is cancelled iff `p` is |
| `JobContext.ContextTree.Cancel` | runner/job/context.go:74 | the shared tree records the cancel of `t` |
| `JobContext.WaitGroup.Done` | runner/job/context.go:102 | the counter drops by one |
| `JobContext.RunContext.constructor` | runner/job/context.go:12-22 | a struct literal: the given fields, a fresh once-guard, `finished` false |
| `JobContext.RunContext.SetWaitGroup` | runner/job/context.go:24-26 | the wait group is replaced; the once-guard and `finished` are untouched, so a valid context stays valid |
| `JobContext.RunContext.IsChild` | runner/job/context.go:28-30 | reports the child flag |
| `JobContext.RunContext.IsAlive` | runner/job/context.go:81-83 | alive exactly while not finished |
| `JobContext.RunContext.ForkContext` | runner/job/context.go:32-42 | a fresh context with the same root vars, token, cancel function, channel and wait group, marked child, with a fresh once-guard and not finished; since the fork carries the source's token and cancel function, the two are always cancelled together and calling `Cancel` on either has the same effect (with no cancel function, neither cancels anything) |
| `JobContext.RunContext.ChildContext` | runner/job/context.go:44-56 | a fresh context whose token is a new child of the source's token and whose cancel function cancels that token; it shares channel and wait group, is marked child, is cancelled iff the source is, and descends from the source, so cancelling the source cancels it |
| `JobContext.RunContext.WithTimeout` | runner/job/context.go:58-66 | a fresh context with a new child token and its cancel function, no channel, no wait group, not a child |
| `JobContext.RunContext.Cancel` | runner/job/context.go:68-75 | with no cancel function the tree is unchanged; otherwise its token is cancelled, and with it every context derived from it, such as those made by `ChildContext` |
| `JobContext.RunContext.Result` | runner/job/context.go:85-104 | a second or later call is absorbed with nothing changed; the first call sends `err` exactly when the channel exists and has room, and then, iff a wait group is attached, sets `finished` and decrements the counter exactly once; with a nil or full channel it reports `Blocked` and changes nothing but the guard; `finished` implies the guard is used |
| `JobContext.RunContext.Success` | runner/job/context.go:77-79 | exactly the contract of `Result` with a nil error |
| `JobContext.NewRunContext` | runner/job/context.go:106-108 | a fresh context that is alive, not a child, with no wait group, no cancel function and an empty channel of capacity 1 |
| `Watch.Start` | plugins/builtin/watch/plugin.go:36-46 | initially the flag is clear, the loop has created exactly one child, it is cancelled iff the plugin's context is, the job has not run, and `LoopInv` holds |
| `Watch.Step` | plugins/builtin/watch/plugin.go:48-63 | an event sets the flag and re-arms the timer, changing nothing else; an expiry with the flag clear changes only the timer; an expiry with the flag set clears it, and the new tree is exactly the old one with the old child cancelled and one new child of the plugin's context added, on which the job starts once; `LoopInv` is kept |
| `Watch.FireKeepsInv` | plugins/builtin/watch/plugin.go:56-62 | an expiry with the flag set keeps `LoopInv`; the old child is cancelled, and the new one is cancelled iff the plugin's context is |
| `Watch.RunLoop` | plugins/builtin/watch/plugin.go:43-65 | any input sequence keeps `LoopInv`: every child but the current one is cancelled; children are only ever added to the record of those created |
| `Watch.Teardown` | plugins/builtin/watch/plugin.go:37-41 | the deferred cancel leaves the current child cancelled and the record of children and runs as it was |
| `Watch.TeardownSpares` | plugins/builtin/watch/plugin.go:37-41 | the deferred cancel revives nothing cancelled before and changes no token older than the current child |
| `Watch.StepSparesOlder` | plugins/builtin/watch/plugin.go:56-62 | a restart of the job cancels no token older than the loop's first child, so neither the plugin's context nor any ancestor or sibling of it |
| `Watch.RunLoopSparesOlder` | plugins/builtin/watch/plugin.go:43-65 | over any input sequence the loop keeps the cancellation of every token older than its first child |
| `Watch.CallSparesOlder` | plugins/builtin/watch/plugin.go:36-65 | the whole run, from the first child to the teardown, leaves every token that existed before it, the plugin's own context included, exactly as cancelled as it was |
| `Watch.RunsCountDirtyFires` | plugins/builtin/watch/plugin.go:53-61 | the job runs once per timer expiry that finds the flag set, counted up to the first `Closed` |
| `Watch.PendingAfterFirst` | plugins/builtin/watch/plugin.go:49-62 | "an event arrived after the last expiry" is updated by one input exactly as the loop updates its flag: an event sets it, an expiry clears it |
| `Watch.FlagMeansPending` | plugins/builtin/watch/plugin.go:46-62 | while the event channel is open, the dirty flag is set exactly when an event arrived after the last timer expiry (or, with no expiry at all, when it was set at the start); so an expiry starts the job exactly when an event came in since the previous expiry |
| `Watch.ClosedEndsLoop` | plugins/builtin/watch/plugin.go:49-52 | a closed event channel ends the loop; nothing after it is processed |
| `Watch.TeardownCancelsAll` | plugins/builtin/watch/plugin.go:37-41 | after `Call`'s teardown, every child the plugin created is cancelled |
| `Watch.AtMostOneLive` | plugins/builtin/watch/plugin.go:59-60 | any two live children created by the loop are the same, namely the current one |
| `Watch.BurstMarksDirty` | plugins/builtin/watch/plugin.go:49-55 | after a burst of events the flag is set, whatever it was before |
| `Watch.FiresRunOnce` | plugins/builtin/watch/plugin.go:56-62 | consecutive expiries start the job at most once, and only when the flag was set |
| `Watch.BurstFiresOnce` | plugins/builtin/watch/plugin.go:53-61 | a burst of at least one event and at least one expiry starts the job once and leaves the flag clear |
| `Watch.OneBurstOneRun` | plugins/builtin/watch/plugin.go:43-65 | from the start, a burst of `k` >= 1 events and `m` >= 1 expiries runs the job exactly once |
| `Watch.TwoBurstsTwoRuns` | plugins/builtin/watch/plugin.go:43-65 | two bursts run the job exactly twice, and the first run's child is cancelled |
| `Watch.Plugin.constructor` | plugins/builtin/watch/plugin.go:21-28 | the plugin keeps its watch path, debounce time and job |
| `Watch.Plugin.Call` | plugins/builtin/watch/plugin.go:30-70 | a failed watch returns the formatted error before any child is created and leaves the tree unchanged; otherwise the tree ends as `RunLoop` then teardown describe, the job ran on the children `RunLoop` lists, once per expiry that found the flag set, and every one of them is cancelled at the end; in both cases every token that existed before the call, the plugin's own context included, keeps its cancellation status |
| `Watch.Plugin.EventLoop` | plugins/builtin/watch/plugin.go:43-65 | the loop over the shared context tree ends in exactly the tree, current child and runs that `RunLoop` describes |
| `Watch.Plugin.Turn` | plugins/builtin/watch/plugin.go:48-63 | one turn over the shared context tree leaves the flag, timer, current child, runs and tree exactly as `Step` describes |

## Left out

- Logging: the `Logger` field, sub-loggers and every log call are not modelled.
- The `recover` branch of `Result` (runner/job/context.go:87-91) is not modelled; channels are never closed here, so a send cannot panic.
- The thread safety of `sync.Once`: the once-guard is a boolean.
- JobContext.RunContext.Result: a send that would block in Go is reported as `Blocked` and not waited out, so a blocked send that later completes never sets `finished` nor signals the wait group.
- JobContext.WaitGroup.Done: the counter is an unbounded integer; Go's panic when a wait group's counter goes negative is not modelled, so `JobContext.RunContext.Result`, which calls it, does not model that panic either.
- JobContext.RunContext.WithTimeout: the deadline is ignored; the context is only a fresh cancellable token under the source.
- Receiving from the result channel is not modelled: it belongs to the orchestrator and to `invokeJob`.
- Watch.Plugin.Call: the watch library is a parameter `watchErr` (the outcome of installing the watch), and `notify.Stop` is not modelled. Real timers and the debounce interval are reduced to an `armed` flag. The blocking wait on `done` is abstracted: the loop consumes all of `inputs`, then the teardown runs. Interleavings where the loop goroutine runs after `Call` has torn down are not modelled. Nothing in the code stops the goroutine unless the event channel is closed.
- `invokeJob` (plugins/builtin/watch/plugin.go:72-81): running the job through the orchestrator and waiting for its result are recorded only as the child token the run was started on.
- `Plugin.Cancel` (plugins/builtin/watch/plugin.go:83-88): its blocking send on `done` and its watch removal are not modelled.
- Job parameters (`Params`, values of arbitrary type) are omitted. Job variables are an opaque `map<string, string>`, `Delay` is a `nat` (Go `uint`), and the `uint8` encoding of `JobExecType` is not modelled.
- The storage, CLI, shell plugin and console logging files are not part of this model. They are environment, process and filesystem plumbing around foreign code. The orchestrator and the variable-expansion engine are not part of this model either.

# cargo-docserve, modelled in Dafny

`cargo docserve` runs `cargo doc`, serves the generated `target/doc` tree over
HTTP and, when asked to watch, rebuilds the documentation whenever the
workspace changes. This project models the two parts of it that are decisions
rather than plumbing:

- `docserve.dfy` (module `Docserve`, from `src/main.rs`): turning the parsed
  command line and the cargo metadata into a `Config` (bind address, the
  `docserve` subcommand argument, the doc directory, the watch list), the
  root-redirect target `/<package>/index.html`, and the routing decision of
  the HTTP handler.
- `cargo_doc.dfy` (module `CargoDoc`, from `src/cargo_doc.rs`): the argument
  list and result of one `cargo doc` run, and the rebuild coordinator. The
  coordinator is a deterministic message machine: the two channels are
  queues, each loop iteration is one step (`NotifyNext`, `CargoNext`), the
  watcher callback is `Deliver`, and the shutdown closure is `ShutdownSend`
  followed by joining both loops. The class
  `WatchSession` holds the same state in fields; its step methods drain the
  queues in place and are proved to perform exactly those transitions. A
  ghost counter records the rebuilds the cargo loop starts.

External effects are inputs: the outcome of `cargo metadata` is a
`Result<Metadata>` argument of `TryFromOpt`, and what the operating system
reports for a `cargo` process is a `Spawn` argument of `RunDoc` and
`CargoStep`. The static file server is the opaque response `Static`.

The 10 ms debounce sleep is modelled as "whatever is already queued when
draining starts": anything that arrives during the sleep is, in the model,
already in the queue when `CargoNext` runs. Interleavings of the threads are
modelled by `Exec` over a schedule of `Action`s (a step of either loop, a
watcher callback, a channel losing its senders), each of which is atomic.

## Model

| member | source | states |
|---|---|---|
| Docserve.TryFromOpt | src/main.rs:78-105 | a metadata error is returned unchanged; otherwise the host is 0.0.0.0 (unspecified) exactly when `public` is set and a loopback address otherwise, the port is carried over, a leading `docserve` argument and only that is removed (all other arguments kept in order), `docDir` is the target directory followed by `/doc`, and `watch` is `Some(watchExtra)` exactly when watching is on |
| Docserve.ReplaceDashes | src/main.rs:115 | the result has the length of the name and agrees with it at every position except that each `-` becomes `_` |
| Docserve.RedirectSegment | src/main.rs:117 | a location it accepts is exactly `/` + segment + `/index.html` |
| Docserve.RedirectSegmentOfTarget | src/main.rs:117 | reading the segment back from `/<segment>/index.html` gives the segment (the inverse of formatting the target) |
| Docserve.OpenAt | src/main.rs:110-118 | fails exactly when there is no root package and no package at all; otherwise the target is `/<segment>/index.html` with a dash-free segment that is the root package's name, or the first package's when there is no root, with `-` replaced by `_` |
| Docserve.Handle | src/main.rs:168-182 | a 301 redirect whose location is `OpenAt`'s target exactly for GET of `/`; every other method and path, HEAD `/` included, goes to the static server for `docDir` unchanged |
| CargoDoc.RunDoc | src/cargo_doc.rs:27-46 | `cargo` gets `doc`, then `--manifest-path m` exactly when a manifest is configured, then all cargo arguments in order; the result is success exactly when the process exited with code 0, a spawn failure and any other exit are errors carrying their cause |
| CargoDoc.Deliver | src/cargo_doc.rs:56-61 | the watcher callback appends the event to the notify queue while the notify loop is alive and changes nothing else; `WatchSession.WatcherEvent` performs it |
| CargoDoc.NotifyNext | src/cargo_doc.rs:89-101 | one notify-loop iteration takes at most the front message, sends at most one `Run` and only to a live cargo loop, never touches the cargo loop's state or the rebuild count, and does nothing once stopped; its behaviour over a whole queue is stated by `NotifyForwards`, `NotifyStopsAtShutdown` and `DisconnectStopsIdleNotify`, and `WatchSession.NotifyStep` performs it |
| CargoDoc.CargoNext | src/cargo_doc.rs:107-125 | one cargo-loop iteration starts at most one rebuild, and only when no `Shutdown` was queued, after which the queue is empty and the loop running; it leaves a suffix of the queue, never touches the notify side, and does nothing once stopped; `RunsCoalesce`, `ShutdownQueuedStopsCargo` and `DisconnectStopsIdleCargo` state its cases, and `WatchSession.Receive` and `WatchSession.CargoStep` perform it |
| CargoDoc.ShutdownSend | src/cargo_doc.rs:130-131 | the closure appends `Shutdown` to the notify queue and then to the cargo queue, each only if that loop is alive, and changes nothing else; `NoRebuildAfterShutdown` and `ShutdownStopsBoth` are about the state it leaves, and `WatchSession.ShutdownAndJoin` performs it |
| CargoDoc.Send | src/cargo_doc.rs:93 | a message is appended to the queue when the receiving loop is alive and lost otherwise |
| CargoDoc.Drain | src/cargo_doc.rs:112-117 | draining sees a `Shutdown` exactly when one is queued; it then stops right after the first one and leaves what follows it queued, and otherwise empties the queue |
| CargoDoc.Forwarded | src/cargo_doc.rs:89-101 | the notify loop forwards only `Run`s, and with no `Shutdown` among the messages one per successful event |
| CargoDoc.NotifyForwards | src/cargo_doc.rs:89-101 | run over its queue, the notify loop appends one `Run` per successful event in arrival order to the cargo queue, ignores watcher errors, stops exactly when a `Shutdown` was queued and processes nothing after it |
| CargoDoc.NotifyStopsAtShutdown | src/cargo_doc.rs:99 | with a `Shutdown` queued, the notify loop has stopped after at most as many steps as there are queued messages |
| CargoDoc.RunsCoalesce | src/cargo_doc.rs:109-121 | a `Run` followed by queued `Run`s and no `Shutdown` empties the queue and starts exactly one rebuild, leaving the loop running |
| CargoDoc.BurstRebuildsOnce | src/cargo_doc.rs:89-121 | any burst of one or more successful events with no `Shutdown`, once forwarded, makes one cargo step start exactly one rebuild and leaves nothing queued |
| CargoDoc.ShutdownQueuedStopsCargo | src/cargo_doc.rs:107-125 | once a `Shutdown` is queued for the running cargo loop, its next step stops it without a rebuild, whether the `Shutdown` is first or found while draining |
| CargoDoc.DisconnectStopsIdleCargo | src/cargo_doc.rs:123 | an idle cargo loop whose channel is empty and disconnected stops, and nothing else changes |
| CargoDoc.DisconnectStopsIdleNotify | src/cargo_doc.rs:99 | an idle notify loop whose channel is empty and disconnected stops, and nothing else changes |
| CargoDoc.StoppedStaysStopped | src/cargo_doc.rs:99-125 | a loop that has stopped stays stopped under any schedule, and a stopped cargo loop starts no rebuild |
| CargoDoc.NoRebuildAfterShutdown | src/cargo_doc.rs:128-134 | after the shutdown closure has sent its messages, no schedule of loop steps, watcher events or disconnections starts another rebuild |
| CargoDoc.ShutdownStopsBoth | src/cargo_doc.rs:128-134 | after the shutdown messages, the notify loop stops within as many steps as it has queued messages and the next cargo step stops the cargo loop, with no rebuild started |
| CargoDoc.WatchSession.constructor | src/cargo_doc.rs:51-106 | both queues empty and connected, both loops running, no rebuilds |
| CargoDoc.WatchSession.WatcherEvent | src/cargo_doc.rs:56-61 | the watcher callback queues the event for the notify loop while that loop is alive |
| CargoDoc.WatchSession.SendersGone | src/cargo_doc.rs:99 | marks one channel as having no senders left |
| CargoDoc.WatchSession.NotifyStep | src/cargo_doc.rs:89-101 | one iteration of the notify loop, equal to `NotifyNext` of the previous state |
| CargoDoc.WatchSession.Receive | src/cargo_doc.rs:108-117 | waits, drains in place and decides on a rebuild, equal to `CargoNext` of the previous state; it decides to rebuild exactly when the counter grows by one, and then the loop is still running |
| CargoDoc.WatchSession.CargoStep | src/cargo_doc.rs:107-125 | one iteration of the cargo loop, equal to `CargoNext`; a build is run exactly when a rebuild is counted, its result is success exactly when cargo succeeded, and a failed build leaves the loop running |
| CargoDoc.WatchSession.JoinNotify | src/cargo_doc.rs:132 | with a `Shutdown` queued for a live notify loop, waiting for it to end leaves exactly the state of as many notify iterations as there were queued messages, with the loop stopped |
| CargoDoc.WatchSession.ShutdownAndJoin | src/cargo_doc.rs:128-134 | the new state is `ShutdownSend` of the old one, followed by the notify loop running through its queue and one cargo-loop iteration; both loops are then stopped and the rebuild count is unchanged |

## Left out

- Spawning `cargo` (`Command::status`): the process outcome is the `Spawn` input; inherited stdout/stderr and logging are not modelled.
- Running `cargo metadata` (`Opt::metadata`) and command-line parsing with StructOpt: the parsed `Opt` and the metadata result are inputs.
- The `notify` watcher itself: creating it, registering the workspace root and the extra paths (each failure there is fatal through `?`) and unregistering the target directory. The code has no per-event path filter; it relies on unwatching the target directory, so no exclusion filter is modelled. The callback is the `WatcherEvent` action.
- Real threads, channels, `join` and the 10 ms sleep: steps are atomic and interleave only between iterations; a build in flight is not interleaved with other steps.
- The model lets either channel lose all its senders at any time. In the program this can only happen once the owners of the senders are gone (the shutdown closure dropped uncalled, the notify thread ended); allowing it always is an over-approximation under which the lemmas still hold.
- The HTTP server, the tokio runtime and `hyper_staticfile::Static` (404s, content types): a non-redirect request is the opaque `Static` response.
- Docserve.Handle: the `.unwrap()` of `open_at()` is the precondition that a root GET has a package to redirect to; the panic when it has none, and the `.unwrap()` of `HeaderValue::from_str`, are not modelled.
- The request's query string: the router sees only the path of the URI, so a request is a method and a path.
- `main`: the initial build, starting the watcher only when `watch` is set, serving, and calling the shutdown closure when the server ends.
- The commented-out `DocService` in `src/main.rs`, which is dead code.

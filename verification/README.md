# nixos-container-tui backend core, modelled in Dafny

nixos-container-tui is a terminal UI for NixOS containers. Its backend has
three parts:

- It discovers the containers from the config directory `/etc/nixos-containers`.
- It starts two monitors per container. The status monitor follows the
  container's systemd unit over D-Bus. The log monitor follows `journalctl`.
- It sends every observation to the UI as a `NamedUpdate` on one unbounded
  channel.

Each monitor body runs inside `report_async!`. Whatever the body fails with
reaches the UI as exactly one `Error` update for that container. The error
carries the monitor's context string.

This project models that core as plain Dafny:

- `errors.dfy` (`Errors`): an anyhow error is its chain of context messages,
  outermost first. `.context(m)` puts `m` in front and `anyhow!(m)` is the
  chain `[m]`.
- `messages.dfy` (`Messages`): the update types and `ContainerState::from_systemd`.
  It is an exact table of eight systemd `ActiveState` tokens. The model proves
  that the table is a bijection and that every other token is rejected with
  its own name in the message.
- `backend_utils.dfy` (`BackendUtils`): `service_name`, and the channel as a
  class whose queue only grows. `log!` is an append to that queue.
  `report_async!` is the `ReportAsync` method, and `Reported` is the function
  that specifies what a wrapped body sends in all.
- `backend.dfy` (`Backend`): the two monitors and `get_containers`.
  - Each monitor is a method with the source's `while let` loop. Each method
    is proved equal to a specification function of its inputs
    (`StatusEvents`, `LogEvents`).
  - The D-Bus setup, the state stream, the `journalctl` spawn and its output
    lines become inputs. Each input is the sequence of outcomes those calls
    return.
  - Lemmas about the specification functions state the order of the updates,
    where an `Error` can appear, and that nothing after a failure is read.
  - `get_containers` works on the outcome of listing the directory. The
    first failing entry fails the whole call. Otherwise the names are sorted
    in place.
- `string_order.dfy` (`StringOrder`): Rust's order on `str`, proved to be a
  total order. It also holds the in-place sort on an array, proved sorted and
  a permutation, and proves that sorting determines the result uniquely.
- `tui_utils.dfy` (`TuiUtils`): `get_list_child`, which finds the first row
  with a given label. Delimiters never match.

`get_containers` (src/backend/mod.rs:126-147) only sorts; duplicate names are
kept, as `Backend.ExampleSorted` shows.

## Model

| member | source | states |
|---|---|---|
| Errors.Context | src/backend/mod.rs:60-62 | `.context(m)` keeps a value unchanged, and gives an error `m` as its outermost message with the whole old chain below it |
| Errors.Fail | src/backend/messages.rs:50 | `anyhow!(m)` is a fresh error whose whole chain is `m` |
| Messages.FromSystemd | src/backend/messages.rs:40-52 | a token is accepted exactly when it is one of the eight table entries, and the accepted state maps back to that token; any other token fails with the single message "Unrecognized unit status " followed by the token |
| Messages.FromSystemdToken | src/backend/messages.rs:41-49 | every state is decoded from its own token, so all eight states are reachable |
| Messages.FromSystemdInjective | src/backend/messages.rs:41-49 | two accepted tokens that decode to the same state are equal |
| Messages.SystemdTokenInjective | src/backend/messages.rs:41-49 | no two states share a token; with the two lemmas above, the table is a bijection |
| Messages.FromSystemdIsExact | src/backend/messages.rs:41-50 | matching is case-sensitive and exact: "", "ACTIVE", "Active", "active " and "bogus" are rejected, each named in its error |
| BackendUtils.ServiceName | src/backend/utils.rs:5-7 | the unit name is "container@", then the container name, then ".service", and is 18 characters longer than the container name |
| BackendUtils.ServiceNameInjective | src/backend/utils.rs:5-7 | distinct containers get distinct unit names |
| BackendUtils.Channel.constructor | src/backend/mod.rs:34 | a new channel is open and empty |
| BackendUtils.Channel.Send | src/backend/mod.rs:77-81 | a send requires a live receiver (the source panics otherwise) and appends exactly one update at the end of the queue |
| BackendUtils.Channel.CloseReceiver | src/backend/mod.rs:48-49 | dropping the receiver keeps the record of what was sent and closes the channel, so no later send is allowed |
| BackendUtils.LogMessage | src/backend/utils.rs:48-57 | `log!` appends one `Log` update for the container and nothing else |
| BackendUtils.Reported | src/backend/utils.rs:29-41 | a successful body's updates are passed through unchanged; a failed body's updates are followed by exactly one `Error` for the container, with the macro's context in front of the body's error; tagging with the container is preserved |
| BackendUtils.ReportAsync | src/backend/utils.rs:29-41 | after the body, `Ok` adds nothing and `Err` adds exactly that one `Error` |
| BackendUtils.ReportedAppends | src/backend/utils.rs:24-41 | reporting a body's result after its updates gives the whole of what the wrapped function sends |
| Backend.StatusLoop | src/backend/mod.rs:73-82 | the specification of the state loop: a clean end comes only after one update for every stream item; a failure sends nothing for the failing item; its step, order and stop behaviour are stated by `StatusLoopStep`, `StatusLoopRecognized`, `StatusLoopStopsAt` and `StatusLoopSendsStates` |
| Backend.StatusTrace | src/backend/mod.rs:56-84 | the specification of the status body: "Connecting to systemd" comes first; a failed setup sends nothing more and fails; a successful one sends "Monitoring" next; `StatusSetupFailure` and `StatusEventsAfterSetup` state the rest |
| Backend.StatusMonitorBody | src/backend/mod.rs:56-84 | the body sends "Connecting to systemd", stops at the first failing setup step with that step's context, else sends "Monitoring" and runs the loop, all as `StatusTrace` says |
| Backend.ForwardStates | src/backend/mod.rs:73-83 | the state loop appends exactly `StatusLoop`'s updates and returns its result |
| Backend.StatusLoopStep | src/backend/mod.rs:73-82 | one loop step: a failed fetch ends with "Failed to get updated state" in front of its error, an unknown token ends with the decode error, a known token sends its state and continues |
| Backend.MonitorContainerStatus | src/backend/mod.rs:54-86 | `monitor_container_status` appends exactly `StatusEvents` |
| Backend.StatusLoopSendsStates | src/backend/mod.rs:73-82 | the loop sends only `State` updates for its own container, at most one per stream item |
| Backend.StatusEventsShape | src/backend/mod.rs:54-86 | the updates start with "Connecting to systemd" and all name the container; a `State` only comes after "Monitoring"; an `Error` can only be the last update, and it is there exactly when the body failed |
| Backend.StatusSetupFailure | src/backend/mod.rs:59-69 | for each setup step that fails, the monitor sends only "Connecting to systemd" and one `Error` whose chain is the monitor context, then the step's context, then the step's error |
| Backend.StatusLoopRecognized | src/backend/mod.rs:73-82 | a run of recognised tokens yields one `State` per token, in order, and the loop then continues with the rest of the stream |
| Backend.StatusRecognizedStream | src/backend/mod.rs:59-83 | a stream of recognised tokens that ends sends the two log lines, then one `State` per token in order, and no `Error` |
| Backend.StatusEventsAfterSetup | src/backend/mod.rs:56-85 | after a successful setup the monitor sends its two log lines and then the reported loop; a failed setup does not depend on the stream |
| Backend.StatusLoopCons | src/backend/mod.rs:73-82 | a recognised token at the head of the stream sends its state, and the loop goes on with the rest |
| Backend.StatusLoopStopsAt | src/backend/mod.rs:73-76 | after recognised tokens, a failing item ends the loop with the updates so far and that item's error |
| Backend.StatusLoopFailsAt | src/backend/mod.rs:74-76 | a failing item ends the loop at once, whatever follows it |
| Backend.StatusStopsAtFailure | src/backend/mod.rs:73-85 | nothing after a failed fetch or an unknown token is looked at, and the monitor ends with exactly one `Error` after the states before it |
| Backend.StatusExample | src/backend/mod.rs:73-82 | activating, active, deactivating, inactive are reported as Starting, Up, Stopping, Down, in that order |
| Backend.StatusBogusExample | src/backend/mod.rs:73-85 | an unknown token after two good ones gives two states and an `Error` naming the token, and the token after it is ignored |
| Backend.JournalctlArgs | src/backend/mod.rs:93-98 | the journalctl arguments are --no-hostname, --follow, --unit and the container's service name, which embeds the container name |
| Backend.JournalctlArgsInjective | src/backend/mod.rs:92-98 | distinct containers get distinct journalctl argument lists |
| Backend.LogLoop | src/backend/mod.rs:107-117 | the specification of the line loop: at most one update per read, and none for a failing read; `LogLoopStep`, `LogLoopLines` and `LogLoopSendsLines` state its steps and order |
| Backend.LogTrace | src/backend/mod.rs:90-119 | the specification of the log body: "Requesting logs" comes first; a failed spawn sends nothing more and fails; a successful one sends "Reading logs" next; `LogSpawnFailure` and `LogLinesThenEnd` state the rest |
| Backend.LogMonitorBody | src/backend/mod.rs:90-119 | the body sends "Requesting logs", fails with "Failed to spawn journalctl" if the spawn fails, else sends "Reading logs" and runs the loop, all as `LogTrace` says |
| Backend.ForwardLines | src/backend/mod.rs:107-117 | the line loop appends exactly `LogLoop`'s updates and returns its result |
| Backend.LogLoopStep | src/backend/mod.rs:107-117 | one loop step: a read error ends with "Failed to read log line" in front of it, the end of output ends cleanly, a line is sent and the loop continues |
| Backend.MonitorContainerLog | src/backend/mod.rs:88-121 | `monitor_container_log` appends exactly `LogEvents` |
| Backend.LogLoopSendsLines | src/backend/mod.rs:107-117 | the loop sends only `ContainerLog` updates for its own container, at most one per read |
| Backend.LogEventsShape | src/backend/mod.rs:88-121 | the updates start with "Requesting logs" and all name the container; a line only comes after "Reading logs"; an `Error` can only be the last update, and it is there exactly when the body failed |
| Backend.LogSpawnFailure | src/backend/mod.rs:91-102 | a failed spawn gives "Requesting logs" and one `Error` whose chain is the monitor context, then "Failed to spawn journalctl", then the spawn error |
| Backend.LogLoopLines | src/backend/mod.rs:107-117 | a run of lines is sent one by one, in order, and the loop then continues with the rest |
| Backend.LogLinesThenEnd | src/backend/mod.rs:106-118 | lines followed by the end of the output give exactly one `ContainerLog` per line in order; nothing after the end is read |
| Backend.LogReadErrorIsFinal | src/backend/mod.rs:107-120 | a read error gives exactly one final `Error` after the lines before it; nothing later is read |
| Backend.LogExample | src/backend/mod.rs:107-117 | "hello" then "world" then the end of the output give exactly those two lines |
| Backend.ConfigName | src/backend/mod.rs:140-142 | the split fails exactly when the name has no '.'; otherwise the result is the prefix before a '.' with no '.' after it, which is the last one |
| Backend.ConfigNameOfDotted | src/backend/mod.rs:140-141 | a stem, a dot and a dot-free extension name the stem, even when the stem contains dots |
| Backend.ConfigNameExample | src/backend/mod.rs:140-142 | "db.old.nix" names "db.old"; "web" names nothing |
| Backend.EntryName | src/backend/mod.rs:129-143 | an entry yields a name exactly when it is a readable UTF-8 file name containing a '.', and the name is its part before the last '.'; an unreadable entry fails with "Failed to get container config" over its error, a non-UTF-8 name with "Container config name contains invalid UTF-8: " and the lossy name, and a name without '.' with "Container config name is not of expected form" |
| Backend.CollectNames | src/backend/mod.rs:129-144 | the listing succeeds exactly when every entry does, with one name per entry in order; otherwise the error is that of the first failing entry |
| Backend.GetContainers | src/backend/mod.rs:126-147 | a listing error gets the context "Failed to list container configs"; an entry error is passed on unchanged; on success the result is sorted, keeps duplicates, is a permutation of the entries' names, and each name comes from a file in the listing |
| Backend.ExampleSorted | src/backend/mod.rs:145 | the names web, db.old, web sort to exactly db.old, web, web |
| StringOrder.LessEq | src/backend/mod.rs:145 | Rust's `str` order, compared character by character; a prefix comes before any extension of it; `LessEqReflexive`, `LessEqTotal`, `LessEqAntisymmetric` and `LessEqTransitive` make it a total order |
| StringOrder.LessEqReflexive | src/backend/mod.rs:145 | the order on names is reflexive |
| StringOrder.LessEqTotal | src/backend/mod.rs:145 | any two names are comparable |
| StringOrder.LessEqAntisymmetric | src/backend/mod.rs:145 | names that are each at most the other are equal |
| StringOrder.LessEqTransitive | src/backend/mod.rs:145 | the order is transitive |
| StringOrder.SortInPlace | src/backend/mod.rs:145 | `configs.sort()` leaves the array sorted and a permutation of its old contents |
| StringOrder.Insert | src/backend/mod.rs:145 | one insertion step makes `a[..i + 1]` sorted, holding exactly the elements it held before, and leaves `a[i + 1..]` unchanged |
| StringOrder.SortedUnique | src/backend/mod.rs:145 | two sorted permutations of the same names are equal, so the sorted list is fully determined |
| TuiUtils.Position | src/tui/utils.rs:6-11 | the index of the first row with the label, or none exactly when no row has it; delimiters never match |
| TuiUtils.GetListChild | src/tui/utils.rs:5-16 | a view is found exactly when some row has the label, and it is the view of the first such row |
| TuiUtils.GetListChildExample | src/tui/utils.rs:5-16 | a delimiter is skipped, the first of two equal labels wins, and matching is case-sensitive |

## Left out

- Concurrency: `start_backend` (src/backend/mod.rs:26-46) spawns two tasks per container onto the shared channel. The model runs one monitor on its own channel, so it says nothing about how updates from different tasks interleave.
- The D-Bus connection and the zbus proxies (src/backend/proxies/) are not part of this model. Each setup step is reduced to its outcome (`StatusSetup`), and each state fetch to a `Result<string>`.
- The `journalctl` child process: the spawn becomes its outcome and the output becomes the sequence of `next_line` results. `kill_on_drop`, the `child.wait` task and the `expect` on the child's stdout are not modelled.
- Backend.ForwardLines: running out of input is read as the end of the output. A real `next_line` blocks until it returns something.
- The directory read: `read_dir` of `/etc/nixos-containers` becomes its outcome, and file names become strings. Leaking the names as `&'static str` is not modelled.
- Errors are reduced to their context chains. anyhow's formatting (`{error:#}`), backtraces and the error types of the libraries are not modelled.
- The UI: src/tui/ apart from `get_list_child`, and src/main.rs, are not part of this model.
- TuiUtils.GetListChild: it returns the view itself rather than a mutable borrow into the list.
- Commands that start or stop a container are not part of this model.

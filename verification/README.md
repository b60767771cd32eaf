# uniq-proc daemon registry, in Dafny

uniq-proc lets a user register named shell commands and start, stop, restart and
toggle them through a background daemon. The daemon owns one mutex-guarded
`DaemonState` with two maps: `commands` (name → shell command) and `procs`
(name → pid of the running shell). This project models that registry and the
verbs that change it, as pure transitions. It also models how the daemon
interleaves them across handler threads.

- `wrappers.dfy`: `Option` and `Result`.
- `registry.dfy` (module `Registry`): the registry datatype, with `Pid` as a
  `u32` newtype. Also the two files it is persisted to (the state snapshot and
  the command-definition file) and the startup merge of `DaemonState::new`.
- `protocol.dfy` (module `Protocol`): the CLI subcommands, the socket messages,
  and the `TryFrom<Commands> for Message` conversion.
- `daemon.dfy` (module `Daemon`): each verb as one critical section. Each
  returns its reply, the registry it leaves, and which files it rewrites.
  `execute` holds the lock three times, so it is split into `ExecuteCheck`,
  `ExecuteStart` and `ExecuteFinish`.
- `server.dfy` (module `Server`): every accepted connection becomes a task (a
  handler thread), named by the critical section it runs next. A schedule of
  `Connect` and `Advance` events interleaves the sections of all tasks in any
  order; this stands in for the threads and the mutex. The OS's part of a
  section comes with the event: the pid a spawn returned, or whether the
  process to kill still exists. The module also holds the frame and
  persistence invariants over whole schedules, and the startup/shutdown round trip.
- `scenarios.dfy` (module `Scenarios`): particular interleavings. These are a
  second `execute` while the first one waits, two `execute`s that both pass the
  check, a stale finish after a `restart`, `toggle`'s check-then-act window, and
  the verbs run alone.

Replies are reproduced exactly as the code writes them. An `execute` of a name
that is already running replies "`name` is not registered yet", the same as for
an unregistered name. A successful `kill` replies the literal
"Successfully killed name" without interpolating the name. The model keeps both
as written. It also keeps two more behaviours of the code:

- A failed spawn makes the handler panic. The connection gets no response, and
  no error reply is sent.
- The final save happens only after `std::thread::scope` has joined every
  handler. If any handler panicked, the scope re-raises the panic and the final
  save does not happen.

The program keeps at most one entry per name, but not at most one running shell
per name. `execute` releases the lock between its check (src/main.rs:216-224) and
its insert (src/main.rs:230-233). So two `execute`s of one stopped name can both
pass the check and both spawn. The second insert overwrites the first pid, and
the first shell runs untracked (`Scenarios.BothExecutesLaunch`).

When a late finish meets a different pid (the `else` branch at
src/main.rs:242-246), it leaves the newer entry alone. This protection holds only
when the relaunched shell got a different pid. The first handler's `wait`
(src/main.rs:235) reaps its shell before that handler takes the lock again. The OS
may therefore hand the same pid to the relaunch. The stale finish then removes the
newer entry (`Scenarios.StaleFinishWithReusedPid`).

## Model

| member | source | states |
|---|---|---|
| Registry.Persist | src/main.rs:181-191 | `save_state` rewrites the snapshot with the whole registry; `write_commands_to_config_dir` rewrites the command file with the commands; nothing else on disk changes |
| Registry.Startup | src/main.rs:193-210 | the commands come from the command file if it exists, else from the snapshot if `keep` and it exists, else empty; procs come from the snapshot exactly when `keep` and it exists; a file that does not parse aborts startup, even one whose content would be discarded |
| Registry.StartupConfigSynced | src/main.rs:193-210 | after any successful startup, the command file (if present) holds exactly the registry's commands |
| Registry.RecoverSnapshot | src/main.rs:187-210 | a snapshot written from a registry, together with a command file that agrees with it, is read back by a `-k` startup as the same registry |
| Registry.FreshStartIgnoresSnapshot | src/main.rs:193-210 | without `-k` nothing is running after startup, and the snapshot's content, even garbled, makes no difference |
| Protocol.ToMessage | src/main.rs:74-85 | `Daemon` and only `Daemon` fails, with "Daemon is not a message"; no subcommand yields the `Alive` probe |
| Protocol.ToMessageRoundTrip | src/main.rs:74-85 | every other subcommand becomes the same-named message with the same fields, and every message except `Alive` comes from exactly one subcommand |
| Daemon.Add | src/main.rs:278-284 | `commands[name]` becomes the command; every other command and all of `procs` are unchanged; both files are rewritten; the reply is "Added: " and the stored command |
| Daemon.Remove | src/main.rs:286-292 | `name` leaves `commands`; other commands and all of `procs` are unchanged (a running command stays tracked); both files are rewritten; the reply is "Removed name" |
| Daemon.ExecuteCheck | src/main.rs:214-227 | launches exactly when the name is registered and not running, with the registered command; otherwise replies "name is not registered yet" |
| Daemon.ExecuteStart | src/main.rs:228-234 | records the spawned pid under the name, changes no other entry or command, saves the snapshot |
| Daemon.ExecuteFinish | src/main.rs:235-247 | removes the entry only when it still holds this pid (reply "executed successfully", snapshot saved); an entry with another pid, or none, leaves the registry and the disk alone and gets the "very interesting timing" reply |
| Daemon.Kill | src/main.rs:250-265 | an untracked name replies "was not running via uniq-proc"; a vanished process replies "Failed to get the process" and the entry stays; otherwise only the name's entry is dropped, the commands are unchanged, the snapshot is saved, and the reply is "Successfully killed name" |
| Daemon.SectionsPersistChanges | src/main.rs:214-292 | every section that changes the registry saves the snapshot, and every section that changes the commands also rewrites the command file |
| Daemon.KillTwice | src/main.rs:250-264 | a second kill right after a successful one replies "not running" and changes nothing |
| Daemon.RemoveIdempotent | src/main.rs:286-292 | removing twice is the same as removing once; removing an absent name leaves the registry unchanged and still replies "Removed name" |
| Daemon.AddRemoveThenCheck | src/main.rs:100-292 | after `add`, `list` shows the added command and execute of a stopped name launches it; after `remove`, `list` no longer shows the name and execute is refused whether or not the name runs |
| Daemon.List | src/main.rs:100-103 | the listing, taken without changing anything, shows every registered name, running or not, with the command an execute would launch once the name is stopped; for a stopped name that is what execute launches now |
| Daemon.IsRunning | src/main.rs:266-270 | toggle's check is true exactly when a kill that finds its process would change the registry; when false, kill would reply "not running" and execute launches exactly when the name is registered |
| Daemon.StartFinishRestores | src/main.rs:228-247 | start and then finish with the same pid give back the registry from before the start |
| Server.Dispatch | src/main.rs:136-154 | the liveness probe is answered "running" and an undecodable payload "Could parse the command" on the spot; Add, Remove and List start their own handlers, Execute starts at the execute check, Kill starts a kill with no follow-up, Restart starts a kill followed by an execute, and Toggle starts at toggle's check, each on the message's name |
| Server.Reply | src/main.rs:294-296 | a restart's reply is the kill reply, a newline, then the execute reply; a reply without a leading kill is the text itself |
| Server.Step | src/main.rs:214-296 | one section changes only its own task; a handler that has ended stays as it is |
| Server.Run | src/main.rs:132-161 | a schedule adds one task per accepted connection, and a written response never changes afterwards |
| Server.Shutdown | src/main.rs:132-163 | after the scope joins the handlers, the snapshot holds the final registry; if any handler panicked, the daemon panics instead of saving |
| Server.Boot | src/main.rs:94-98 | a daemon starts exactly when the startup merge succeeds, holding the merged registry, with no handler and the disk as found, and a command file that agrees with its commands |
| Server.StepKeepsSynced | src/main.rs:214-292 | no section leaves the command file or the snapshot disagreeing with the registry if they agreed before it |
| Server.StepPersistsChanges | src/main.rs:230-292 | a section that changes the registry leaves the snapshot holding it |
| Server.StepCommandsFrame | src/main.rs:214-276 | only `add` and `remove` handlers change the commands, and no section turns a task into one |
| Server.StepIsolation | src/main.rs:214-292 | a section touches the registry only at its own name, and a task keeps that name |
| Server.RunKeepsConfigSynced | src/main.rs:278-292 | in every interleaving, the command file agrees with the in-memory commands |
| Server.RunKeepsStateSynced | src/main.rs:230-292 | once the snapshot holds the registry, it does so after every interleaving |
| Server.RunCommandsFrame | src/main.rs:214-276 | with no `add`/`remove` in flight or arriving, no interleaving of the other verbs changes the commands |
| Server.RunIsolation | src/main.rs:143-156 | requests for other names, in any interleaving, leave the command and pid recorded for a name unchanged |
| Server.SessionRoundTrip | src/main.rs:162-210 | a daemon serving any schedule and shutting down cleanly leaves files from which `-k` recovers exactly its final registry |
| Scenarios.ExecuteAlone | src/main.rs:214-248 | execute of a registered, stopped name with nothing in between replies "executed successfully" and leaves the registry as it was, with the snapshot saved |
| Scenarios.ExecuteRefusedAlone | src/main.rs:214-227 | execute of a running or unregistered name replies "not registered yet" and changes neither the registry nor the files |
| Scenarios.SecondExecuteRefused | src/main.rs:214-234 | a second execute while the first waits spawns nothing and leaves the first pid recorded |
| Scenarios.RestartDuringWait | src/main.rs:228-296 | while an execute waits on pid p, a restart can kill it and relaunch under q: the registry then records q and both handlers wait |
| Scenarios.StaleFinishSparesNewerLaunch | src/main.rs:236-247 | when a restart relaunches a name under a different pid while the old execute waits, the old finish leaves the new entry and reports the interesting timing; the restart's finish then restores the original registry |
| Scenarios.BothExecutesLaunch | src/main.rs:214-247 | two executes of one stopped name can both pass the check and both launch; for distinct pids, the second overwrites the first, whose shell runs untracked, and its finish gets the timing reply while the newer entry stays |
| Scenarios.StaleFinishWithReusedPid | src/main.rs:235-247 | if a restart's relaunch gets the pid the waiting execute just reaped, the stale finish removes the newer entry and replies success |
| Scenarios.StaleFinishKeepsEntry | src/main.rs:236-247 | in any configuration, a finish whose pid is not the recorded one changes neither the registry nor the disk |
| Scenarios.ToggleIsKillOrExecute | src/main.rs:266-276 | in every configuration, with any other handlers in flight, a toggle behaves in every continuation like kill when the name runs and like execute otherwise |
| Scenarios.ToggleAfterConcurrentKill | src/main.rs:266-276 | a kill that lands between toggle's check and its action makes toggle's kill reply "not running"; the race is harmless |
| Scenarios.RestartAlwaysExecutes | src/main.rs:294-296 | restart goes on to execute whatever its kill replied, carrying that reply ahead of the execute's |
| Scenarios.RestartOfVanishedProcess | src/main.rs:294-296 | restart of a name whose process vanished replies the kill failure, a newline, and the execute refusal; nothing changes |

## Left out

- Socket bind, the non-blocking accept loop, read timeouts and sleeps (src/main.rs:127-161). These are I/O and polling; the schedule's `Connect` events stand for accepted connections.
- The signal thread and the `AtomicBool` shutdown flag (src/main.rs:112-125). These are OS signals; a schedule may simply stop.
- The mutex and the thread spawning. Critical sections are atomic steps of a schedule, and a poisoned mutex is not modelled.
- Spawning `sh -c` and waiting for it. The pid a spawn returns is an input of the start step, and the moment the shell exits is when the schedule advances the waiting task.
- Daemon.Kill: the lookup through `sysinfo` of the pid cast to `i32`, and the signal itself, are a boolean input "process found".
- JSON (de)serialisation and file reads/writes. Files are values (`Missing`, `Holds`, `Garbled`), and `list`'s JSON text is the `Listing` of the command map. I/O errors behind `unwrap`/`expect` on reads and writes are not modelled.
- `Daemon::run`'s liveness probe before binding and the socket removal after the final save (src/main.rs:108-111, 163). These are filesystem and socket I/O.
- `send_message`, `main`'s auto-launch and polling loop, and clap parsing (src/main.rs:299-354). These are client-side I/O and CLI plumbing.

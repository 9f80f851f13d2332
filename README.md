# Process manager bookkeeping

This project models the supervisor of the GUI's worker processes, `ProcessManager`
in `module/gui/context/process_manager.py`, and proves properties of the model. The
supervisor runs one `ScriptProcess` per script configuration. It keeps five dictionaries
keyed by configuration name:

- `processes`: the worker process;
- `ports`: its loopback RPC port;
- `clients`: its zerorpc client;
- `log_queue`: the manager queue the worker logs into;
- `log_thread`: the thread that drains that queue into the GUI's log signal.

It also keeps one update queue and one update thread shared by all workers.

The model is a Dafny class, `ProcessManagement.ProcessManager`, whose fields are these
dictionaries. They are `map`s, and `order` keeps the insertion order that Python dicts
iterate in. Process objects, threads, queues and clients are value records carrying an
identity (`serial`). The `alive` and `started` flags stand for `is_alive()` and for a
thread's `start()` having been called. A ghost `trace` records, in order, the lifecycle
calls the supervisor makes on those objects: `start`, `stop`, `terminate` and `restart` on a
process, `start` on a thread (including one that raises), and `connect` on a client.
Constructors of processes, queues, threads and clients are not in the trace; what they
build carries a fresh `serial` instead.

Each operation in the table below is a method, specified by a function on a
value snapshot of the dictionaries (`Bookkeeping.Books`):

| method | specified by |
|---|---|
| `start_log` | `WithLog` |
| `add` | `Admitted`, which is `Recorded` then `Launched` |
| `remove` | `Untracked` |
| `restart` | `Restarted` |
| `stop_all` | `Stopped` |

Each method's postcondition says that the new snapshot, the outcome and the calls made
are those the function gives for the old snapshot. The functions are value-level
definitions with contracts of their own.

The invariant the dictionaries keep between operations is `Bookkeeping.Consistent`:

- `ports` has exactly the tracked configurations;
- clients exist only for tracked configurations;
- every tracked configuration has a log queue and a log thread (`remove` keeps both);
- each process is bound to its recorded port and queue;
- each port lies in [40000, 40200];
- each log thread drains its own configuration;
- `order` lists the tracked configurations once each.

`ProcessManager.Valid()` is this invariant, and lemmas named `…Keeps` prove that each
transition preserves it.

Python exceptions are outcomes: `Returned`, `Raised(e)` or `StillProbing`. What an
operation wrote before raising stays written, as in the source. The port probe of
`is_port_in_use` is a set of busy ports. `random.randint` is a finite stream of draws,
and `StillProbing` is the case where every draw in the stream was busy. The zerorpc
server is a function from client and call to reply. The queue reads of a log thread are
a finite sequence of events: an entry, a timeout, or another exception.

One consequence of the code shows in the model. `remove` keeps `log_thread[config]`, so
a later `add` of the same configuration calls `start()` on an already started thread.
Python raises `RuntimeError` there, and the model raises `ThreadStartedTwice`. That
`add` leaves behind:

- a recorded process that was never started;
- no client at all;
- the port already written.

A `restart` then starts that process. The `restart` after it terminates the process and
raises `KeyError` on the missing client (`Bookkeeping.ReAddRaises`,
`Scenarios.AddRemoveAdd`, `Scenarios.RestartTwice`).

The files:

- `records.dfy`: the value types;
- `port_probe.dfy`: the port draw;
- `log_drain.dfy`: what a log thread emits;
- `mirror_image.dfy`: the image byte stream;
- `books.dfy`: the snapshot, the invariant, the transition functions and the lemmas about them;
- `process_manager.dfy`: the class;
- `scenarios.dfy`: runs from a fresh manager.

## Model

| member | source | states |
|---|---|---|
| PortProbe.PortInUse | module/gui/context/process_manager.py:28-43 | a port is in use iff it is in the set of ports on which a loopback connection would be accepted |
| PortProbe.AllocatePort | module/gui/context/process_manager.py:91-93 | a port is found iff some draw is free; it is 40000 plus the first free draw, every earlier draw's port was busy, and it lies in [40000, 40200] |
| ProcessManagement.ProcessManager.constructor | module/gui/context/process_manager.py:54-70 | all five dictionaries are empty, the invariant holds, and the update queue and a started update thread exist |
| ProcessManagement.ProcessManager.StartUpdateTasks | module/gui/context/process_manager.py:374-384 | a new update queue and a new, started update thread replace any existing ones; the five dictionaries are untouched |
| Bookkeeping.WithLog | module/gui/context/process_manager.py:337-344 | a queue is created only when the configuration has none and a thread only when it has none; an existing one is reused; a new thread targets this configuration's drain and is not started; nothing else changes |
| Bookkeeping.WithLogIdempotent | module/gui/context/process_manager.py:337-344 | a second `start_log` of the same configuration changes nothing |
| ProcessManagement.ProcessManager.StartLog | module/gui/context/process_manager.py:326-344 | the new dictionaries are `WithLog` of the old ones and the result is the recorded queue; no call is made; the invariant, if it held, still holds |
| Bookkeeping.WithLogKeeps | module/gui/context/process_manager.py:337-344 | `start_log` preserves the invariant |
| Bookkeeping.Recorded | module/gui/context/process_manager.py:94-99 | the port is written, the log pipeline is obtained, and a new process bound to that port and to the recorded log queue is recorded last in dict order; clients are untouched |
| ProcessManagement.ProcessManager.Record | module/gui/context/process_manager.py:94-99 | the dictionaries become `Recorded` of the old ones; the update pipeline and the calls are untouched |
| Bookkeeping.RecordedKeeps | module/gui/context/process_manager.py:94-99 | recording a new configuration with a port in range preserves the invariant |
| Bookkeeping.Launched | module/gui/context/process_manager.py:100-110 | the log thread's second start raises before anything else, and that failed start is the only call; otherwise the thread starts, then client creation may raise, then the client is recorded and connect may raise; only on success is the process started, last; the calls are listed in order |
| ProcessManagement.ProcessManager.Launch | module/gui/context/process_manager.py:100-110 | dictionaries, outcome and calls are those of `Launched`, each branch of the source a branch of the method; the update pipeline is untouched |
| Bookkeeping.LaunchedKeeps | module/gui/context/process_manager.py:100-110 | every outcome of the starting part of `add` preserves the invariant |
| Bookkeeping.Admitted | module/gui/context/process_manager.py:89-111 | the new configuration is tracked, last in order, and its process is alive iff `add` returned |
| Bookkeeping.AdmittedKeeps | module/gui/context/process_manager.py:89-111 | `add` preserves the invariant, whatever its outcome |
| Bookkeeping.AdmittedWiring | module/gui/context/process_manager.py:94-110 | the port, log queue and started log thread are recorded whatever the outcome; on success a client connected to that port exists and the calls were thread start, connect, process start; on failure no process was started |
| Bookkeeping.AdmittedPortsDistinct | module/gui/context/process_manager.py:91-94 | when the probe reports every recorded port as in use, the port it found free keeps the recorded ports pairwise distinct |
| ProcessManagement.ProcessManager.Admit | module/gui/context/process_manager.py:94-111 | once a port is drawn, dictionaries, outcome and calls are those of `Admitted`, the invariant is kept, and the ports stay distinct when the probe reports every recorded port as in use |
| ProcessManagement.ProcessManager.Add | module/gui/context/process_manager.py:83-113 | a tracked configuration changes nothing and starts nothing; otherwise probing continues iff every draw is busy, and else the port is the first free draw and dictionaries, outcome and calls are those of `Admitted`; the invariant is kept; distinct ports stay distinct when the probe reports every recorded port as in use |
| ProcessManagement.ProcessManager.CreateAll | module/gui/context/process_manager.py:73-80 | the configurations are added in turn until an `add` does not return; all of them were added iff it returned; those added are tracked and nothing tracked is lost |
| Bookkeeping.Without | module/gui/context/process_manager.py:123 | deleting a key from dict order keeps exactly the other keys, and deleting an absent key changes nothing |
| Bookkeeping.WithoutMiddle | module/gui/context/process_manager.py:123 | deleting a key that occurs once keeps the keys before it and after it, in order |
| Bookkeeping.WithoutDistinct | module/gui/context/process_manager.py:123 | deleting a key keeps the order free of repeats |
| Bookkeeping.WithoutLast | module/gui/context/process_manager.py:123 | deleting the key just inserted gives back the previous order |
| Bookkeeping.Untracked | module/gui/context/process_manager.py:121-125 | exactly the process, port and client entries of the configuration are deleted; log queue, log thread and every other configuration are untouched |
| ProcessManagement.ProcessManager.Forget | module/gui/context/process_manager.py:121-125 | the process is stopped once, the dictionaries become `Untracked`, and the outcome is `KeyError` exactly when there was no client |
| Bookkeeping.UntrackedKeeps | module/gui/context/process_manager.py:121-125 | `remove` preserves the invariant |
| ProcessManagement.ProcessManager.Remove | module/gui/context/process_manager.py:115-129 | an untracked configuration changes nothing; otherwise the process is stopped once, the dictionaries become `Untracked`, and a missing client raises `KeyError` after the process and port are deleted |
| Bookkeeping.RemoveUndoesAdd | module/gui/context/process_manager.py:121-125 | `remove` after a successful `add` restores everything but the log queue, the started log thread and the identities handed out |
| Bookkeeping.ReAddRaises | module/gui/context/process_manager.py:100 | re-adding a removed configuration whose log thread was started raises at the thread's second start, whose failed start is the only call, with no client and the new process never started |
| Bookkeeping.Restarted | module/gui/context/process_manager.py:138-162 | a process that is not alive is started again as the same object; a live one is terminated once, then without a client `KeyError`, with a client a new process on the same port and log queue (a new queue only if it was None) is started; ports, clients and log threads are never changed |
| ProcessManagement.ProcessManager.Respawn | module/gui/context/process_manager.py:139-160 | dictionaries, outcome and calls are those of `Restarted` in each of its three cases; the update pipeline is untouched |
| Bookkeeping.RestartedKeeps | module/gui/context/process_manager.py:138-162 | `restart` preserves the invariant in all three cases |
| ProcessManagement.ProcessManager.Restart | module/gui/context/process_manager.py:132-162 | an untracked configuration changes nothing; otherwise dictionaries, outcome and calls are those of `Restarted`; the invariant is kept |
| Bookkeeping.SweepEvents | module/gui/context/process_manager.py:169-170 | a sweep makes one call per key, in dict order, on that key's process |
| Bookkeeping.SweepNext | module/gui/context/process_manager.py:169-170 | one more key of a sweep appends exactly its call |
| Bookkeeping.Stopped | module/gui/context/process_manager.py:169-170 | every process under the visited keys is no longer alive, every other one is unchanged, and no entry is added or dropped |
| Bookkeeping.StoppedNext | module/gui/context/process_manager.py:169-170 | one more visited key stops exactly its process |
| Bookkeeping.StoppedKeeps | module/gui/context/process_manager.py:164-171 | `stop_all` visits only tracked keys and preserves the invariant |
| Bookkeeping.StoppedStopsEvery | module/gui/context/process_manager.py:164-171 | after `stop_all` no tracked process is alive |
| ProcessManagement.StopSweep | module/gui/context/process_manager.py:169-170 | the loop yields `Stopped` of the processes and the `stop` calls of the sweep in dict order |
| ProcessManagement.ProcessManager.StopAll | module/gui/context/process_manager.py:164-171 | processes become `Stopped` over the dict order, one `stop` call per process in that order; every other dictionary is unchanged and the invariant is kept |
| ProcessManagement.ProcessManager.RestartAll | module/gui/context/process_manager.py:173-180 | one `restart` call per process in dict order; the dictionaries are unchanged |
| ProcessManagement.ProcessManager.GetClient | module/gui/context/process_manager.py:182-192 | the client of the configuration if it has one, else None |
| ProcessManagement.ProcessManager.Forward | module/gui/context/process_manager.py:212-217 | a forwarded call has a reply iff the configuration has a client, and the reply is that client's |
| ProcessManagement.ProcessManager.GuiArgs | module/gui/context/process_manager.py:205-217 | the argument schema from the client, or None without a client |
| ProcessManagement.ProcessManager.GuiTask | module/gui/context/process_manager.py:220-232 | the task's values from the client, or None without a client |
| ProcessManagement.ProcessManager.SetTaskReply | module/gui/context/process_manager.py:245-253 | true iff there is a client and its reply is truthy |
| ProcessManagement.ProcessManager.GuiSetTask | module/gui/context/process_manager.py:235-253 | true iff there is a client and its reply to the string setting is truthy |
| ProcessManagement.ProcessManager.GuiSetTaskBool | module/gui/context/process_manager.py:256-274 | true iff there is a client and its reply to the bool setting is truthy |
| ProcessManagement.ProcessManager.GuiSetTaskNumber | module/gui/context/process_manager.py:277-295 | true iff there is a client and its reply to the number setting is truthy |
| ProcessManagement.ProcessManager.GuiMirrorImage | module/gui/context/process_manager.py:303-324 | None without a client; otherwise the streamed chunks written back to back, in order |
| MirrorImage.ConcatAppend | module/gui/context/process_manager.py:309-310 | writing two streams one after the other gives their payloads one after the other |
| MirrorImage.ChunkInPlace | module/gui/context/process_manager.py:309-310 | each chunk sits in the buffer right after the chunks before it |
| ProcessManagement.ProcessManager.RunLogThread | module/gui/context/process_manager.py:346-371 | nothing is emitted without a queue; otherwise what is emitted is `Drained` of the reads |
| LogDrain.Drained | module/gui/context/process_manager.py:360-371 | at most one emission per read, each keyed by the configuration |
| LogDrain.DrainedAppend | module/gui/context/process_manager.py:360-371 | reads after a failing read contribute nothing |
| LogDrain.StopsAtFirstFailure | module/gui/context/process_manager.py:369-371 | nothing read after the first failing read is emitted |
| LogDrain.SkipsNoneAndTimeout | module/gui/context/process_manager.py:362-368 | a None entry or a timeout emits nothing and does not end the drain |
| LogDrain.DeliversInOrder | module/gui/context/process_manager.py:362-365 | entries are emitted in queue order, each as `(config, text)` |
| LogDrain.EmittedWereRead | module/gui/context/process_manager.py:362-365 | everything emitted was read from the queue before any failing read |
| Scenarios.AddRemoveAdd | module/gui/context/process_manager.py:83-129 | from a fresh manager, add and remove return and the second add raises at the thread's second start, leaving a process that is not alive and no client |
| Scenarios.RestartTwice | module/gui/context/process_manager.py:138-162 | on that state, restart returns and the next restart raises `KeyError` on the client, leaving the process terminated |
| Scenarios.QueryAfterAdd | module/gui/context/process_manager.py:220-253 | after a successful add the worker answers queries; a configuration never added gets None and False |

## Left out

- Sockets: `is_port_in_use` is membership in a set of busy ports, and the loopback connect itself is not modelled.
- Randomness: `random.randint` is a finite stream of draws. When every draw is busy the model reports `StillProbing`, where the source would keep drawing forever.
- RPC: zerorpc is a function from client and call to reply. Transport errors of the forwarders, and the server side, are not modelled.
- `ScriptProcess` is not part of this model. `start`, `stop`, `terminate` and `restart` are recorded calls plus the `alive` flag, so a process never dies on its own, and a `start` on a process object always succeeds.
- Bookkeeping.Restarted: a process that is not alive is restarted by calling `start()` on the same object, and the model takes that call to succeed. If `ScriptProcess` keeps `multiprocessing.Process`'s rule that a process object starts only once, that branch raises in the source; `ScriptProcess` is not part of this model, so the model does not decide it. ProcessManagement.ProcessManager.Respawn and ProcessManagement.ProcessManager.Restart inherit this.
- ProcessManagement.ProcessManager.Add: port distinctness is proved only under the hypothesis that the probe still reports every recorded port as in use. The source does not guarantee that: the port is bound by the worker process, which `add` starts last, and not at all when it raises, so a port drawn by an earlier `add` may still look free and be drawn again.
- ProcessManagement.ProcessManager.RestartAll: records the `restart` call on each process but models none of its effect, because `ScriptProcess.restart` is not part of this model.
- ProcessManagement.ProcessManager.StopAll: the processes map is rebuilt from a loop over values rather than each process object being mutated in place. Python object aliasing is not modelled.
- ProcessManagement.ProcessManager.CreateAll: states which configurations end up tracked, not the full composition of the `add` calls. The configuration list from `Add().all_script_files()` is a parameter.
- `update_thread_func` (lines 387-405): it only logs what it receives. The update thread exists only as a started handle.
- `start_update_tasks` logs an error when the pipeline already exists but still replaces it, so the model only replaces it.
- `gui_mirror_image` stops at the byte buffer. Decoding it with cv2 and numpy and building the `QImage` (lines 311-318) are not modelled.
- Qt signals and slots: `log_signal.emit` is an element of the returned sequence. `gui_menu` and `ConfigMenu` are not part of this model.
- Logging: all `logger` calls, including the checks in `restart` that only log, are left out.
- Manager queues are never None when created, and `manager.Queue()` never fails.
- The `is_alive()` test of log threads in `restart` only logs, so it is not modelled.
- ProcessManagement.ProcessManager.RunLogThread: the reads of the queue are a parameter, and `str(log)` is the entry's text itself.
- Concurrency: the drain threads running beside the operations are not modelled. Every operation is one atomic step.
- Dictionary lookups that the invariant rules out: the model has no `KeyError` branch for them. These are `ports[config]`, `log_queue[config]` and `log_thread[config]` in `restart`, the lookups in `add` after writing, and `del self.ports[config]` in `remove` (line 124).
- ProcessManagement.ProcessManager.Forget: the body of `remove` below its membership test is exact only where `ports` has the configuration, as `Valid()` guarantees for `Remove`: without that entry the source raises `KeyError` at line 124 and keeps the client, while `Forget` returns and deletes the client.
- `gui_set_task_number` takes a float, and a reply may hold a float. The model's value is a `real`, with no floating-point rounding, NaN or infinities.

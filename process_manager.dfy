/** The supervisor of the worker processes: which worker runs for which
    configuration, on which port, with which RPC client, log queue and log
    thread, and how `add`, `remove`, `restart`, `stop_all` and `restart_all`
    change that bookkeeping. Foreign objects are handles (see Records); the
    calls made on them are recorded, in order, in `trace`. Each method that
    changes the bookkeeping is specified by the function of the Bookkeeping
    module that gives the new bookkeeping from the old. */
module ProcessManagement {
  import opened Records
  import opened PortProbe
  import opened LogDrain
  import opened MirrorImage
  import opened Bookkeeping

  /** The loop of `stop_all`: the processes under `keys` are stopped one
      after the other; `calls` are the `stop` calls made, in that order. */
  method StopSweep(keys: seq<string>, before: map<string, Process>)
    returns (procs: map<string, Process>, ghost calls: seq<Event>)
    requires forall c :: c in keys ==> c in before
    ensures procs == Stopped(before, keys)
    ensures calls == SweepEvents(StopEach, keys, before)
  {
    procs := before;
    calls := [];
    var i := 0;
    while i < |keys|
      invariant 0 <= i <= |keys|
      invariant forall x :: x in keys[..i] ==> x in before
      invariant procs == Stopped(before, keys[..i])
      invariant calls == SweepEvents(StopEach, keys[..i], before)
    {
      var c := keys[i];
      StoppedNext(before, keys, i);
      SweepNext(StopEach, keys, before, i);
      calls := calls + [ProcessStop(before[c].serial)];
      procs := procs[c := before[c].(alive := false)];
      i := i + 1;
    }
    assert keys[..i] == keys;
  }

  class ProcessManager {
    var processes: map<string, Process>
    /** The keys of `processes` in insertion order, the order a Python dict iterates in. */
    var order: seq<string>
    var ports: map<string, int>
    var clients: map<string, Client>
    var logQueue: map<string, Option<QueueRef>>
    var logThread: map<string, ThreadRec>
    var updateQueue: Option<QueueRef>
    var updateThread: Option<ThreadRec>
    /** The next unused object identity. */
    var serial: nat
    /** The calls made on foreign objects so far, oldest first. */
    ghost var trace: seq<Event>

    /** The bookkeeping as a value. */
    ghost function Snapshot(): Books
      reads this
    {
      Books(processes, order, ports, clients, logQueue, logThread, serial)
    }

    ghost predicate Valid()
      reads this
    {
      Consistent(Snapshot())
    }

    /** `__init__`: empty bookkeeping, then the update pipeline is started. */
    constructor ()
      ensures Valid()
      ensures processes == map[] && order == [] && ports == map[] && clients == map[]
      ensures logQueue == map[] && logThread == map[]
      ensures updateQueue == Some(QueueRef(0))
      ensures updateThread == Some(ThreadRec(1, UpdateDrain, true))
      ensures trace == [ThreadStart(1)]
      ensures serial == 2
    {
      processes, order, ports, clients := map[], [], map[], map[];
      logQueue, logThread := map[], map[];
      updateQueue, updateThread := None, None;
      serial := 0;
      trace := [];
      new;
      StartUpdateTasks();
    }

    /** `start_update_tasks`: always makes a new update queue and a new update
        thread and starts the thread, even when both were already set. */
    method StartUpdateTasks()
      requires Valid()
      modifies this
      ensures Valid()
      ensures updateQueue == Some(QueueRef(old(serial)))
      ensures updateThread == Some(ThreadRec(old(serial) + 1, UpdateDrain, true))
      ensures trace == old(trace) + [ThreadStart(old(serial) + 1)]
      ensures serial == old(serial) + 2
      ensures unchanged(this`processes, this`order, this`ports, this`clients, this`logQueue, this`logThread)
    {
      ghost var b := Snapshot();
      updateQueue := Some(QueueRef(serial));
      updateThread := Some(ThreadRec(serial + 1, UpdateDrain, false));
      serial := serial + 2;
      updateThread := Some(updateThread.value.(started := true));
      trace := trace + [ThreadStart(updateThread.value.serial)];
      SerialGrowsKeeps(b, serial);
      assert Snapshot() == b.(serial := serial);
    }

    /** `start_log`: the bookkeeping becomes `WithLog` of the old one, and the
        queue on record is returned. */
    method StartLog(config: string) returns (q: Option<QueueRef>)
      modifies this
      ensures Snapshot() == WithLog(old(Snapshot()), config)
      ensures q == logQueue[config]
      ensures unchanged(this`updateQueue, this`updateThread, this`trace)
      ensures old(Valid()) ==> Valid()
    {
      ghost var b := Snapshot();
      if config !in logQueue {
        logQueue := logQueue[config := Some(QueueRef(serial))];
        serial := serial + 1;
      }
      if config !in logThread {
        logThread := logThread[config := ThreadRec(serial, LogDrain(config), false)];
        serial := serial + 1;
      }
      q := logQueue[config];
      assert Snapshot() == WithLog(b, config);
      if Consistent(b) {
        WithLogKeeps(b, config);
      }
    }

    /** `add`: a no-op for a configuration already tracked. Otherwise the
        port is the first free one of the draws (the search goes on while
        every draw is busy), and the bookkeeping, the outcome and the calls
        made are those of `Admitted`. */
    method Add(config: string, env: AddEnv) returns (o: Outcome)
      requires Valid()
      modifies this
      ensures Valid()
      ensures unchanged(this`updateQueue, this`updateThread)
      ensures config in old(processes) ==> o == Returned && unchanged(this)
      ensures config !in old(processes) ==> (o == StillProbing <==> !SomeDrawFree(env.probe, env.draws))
      ensures o == StillProbing ==> unchanged(this)
      ensures config !in old(processes) && o != StillProbing ==>
        && config in ports
        && PortBase <= ports[config] <= PortBase + PortSpan
        && !PortInUse(env.probe, ports[config])
        && FirstFreeDraw(env.probe, env.draws, ports[config])
        && var r := Admitted(old(Snapshot()), config, ports[config], updateQueue, env.rpc);
           Snapshot() == r.books && o == r.outcome && trace == old(trace) + r.calls
      ensures PortsHeld(env.probe, old(ports)) && PortsDistinct(old(ports)) ==>
        PortsDistinct(ports)
    {
      if config in processes {
        o := Returned;
      } else {
        var port := AllocatePort(env.probe, env.draws);
        if port.None? {
          o := StillProbing;
        } else {
          o := Admit(config, port.value, env.rpc, env.probe);
        }
      }
    }

    /** `add` once the port is drawn: the bookkeeping, the outcome and the
        calls made are those of `Admitted`. */
    method Admit(config: string, port: int, rpc: Connector, ghost probe: set<int>) returns (o: Outcome)
      requires Valid() && config !in processes && PortBase <= port <= PortBase + PortSpan
      requires !PortInUse(probe, port)
      modifies this
      ensures Valid()
      ensures unchanged(this`updateQueue, this`updateThread)
      ensures var r := Admitted(old(Snapshot()), config, port, updateQueue, rpc);
        Snapshot() == r.books && o == r.outcome && trace == old(trace) + r.calls
      ensures PortsHeld(probe, old(ports)) && PortsDistinct(old(ports)) ==>
        PortsDistinct(ports)
    {
      ghost var b := Snapshot();
      if PortsDistinct(b.ports) && PortsHeld(probe, b.ports) {
        AdmittedPortsDistinct(b, config, port, updateQueue, rpc, probe);
      }
      RecordedKeeps(b, config, port, updateQueue);
      ghost var w := Recorded(b, config, port, updateQueue);
      LaunchedKeeps(w, config, port, rpc);
      Record(config, port);
      o := Launch(config, port, rpc);
    }

    /** The bookkeeping part of `add`: the port is recorded, the log pipeline
        is obtained, and a new process bound to both is recorded. */
    method Record(config: string, port: int)
      requires config !in processes
      modifies this
      ensures Snapshot() == Recorded(old(Snapshot()), config, port, updateQueue)
      ensures unchanged(this`updateQueue, this`updateThread, this`trace)
    {
      ghost var b := Snapshot();
      ports := ports[config := port];
      var q := StartLog(config);
      ghost var w := Snapshot();
      var p := Process(serial, config, port, q, updateQueue, false);
      serial := serial + 1;
      processes := processes[config := p];
      order := order + [config];
      assert Snapshot() == w.(processes := w.processes[config := p], order := w.order + [config], serial := w.serial + 1);
    }

    /** The starting part of `add`: the log thread, the client, the process. */
    method Launch(config: string, port: int, rpc: Connector) returns (o: Outcome)
      requires config in processes && config in logThread
      modifies this
      ensures var r := Launched(old(Snapshot()), config, port, rpc);
        Snapshot() == r.books && o == r.outcome && trace == old(trace) + r.calls
      ensures unchanged(this`updateQueue, this`updateThread)
    {
      var p := processes[config];
      var t := logThread[config];
      if t.started {
        o := Raised(ThreadStartedTwice(t.serial));
        trace := trace + [ThreadStart(t.serial)];
      } else {
        logThread := logThread[config := t.(started := true)];
        var client := Client(serial, None);
        match rpc
        case ConstructorRaises =>
          o := Raised(ClientCreateFailed);
          trace := trace + [ThreadStart(t.serial)];
        case ConnectRaises =>
          serial := serial + 1;
          clients := clients[config := client];
          o := Raised(ConnectFailed(port));
          trace := trace + [ThreadStart(t.serial), ClientConnect(client.serial, port)];
        case Connects =>
          serial := serial + 1;
          clients := clients[config := client.(endpoint := Some(port))];
          processes := processes[config := p.(alive := true)];
          o := Returned;
          trace := trace + [ThreadStart(t.serial), ClientConnect(client.serial, port), ProcessStart(p.serial)];
      }
    }

    /** `remove`: for a tracked configuration, stops its process, and the
        bookkeeping becomes `Untracked` of the old one; a missing client
        raises `KeyError` once the process and the port are deleted. An
        untracked configuration is a no-op. */
    method Remove(config: string) returns (o: Outcome)
      requires Valid()
      modifies this
      ensures Valid()
      ensures unchanged(this`updateQueue, this`updateThread)
      ensures config !in old(processes) ==> o == Returned && unchanged(this)
      ensures config in old(processes) ==>
        && o == (if config in old(clients) then Returned else Raised(KeyError(config)))
        && Snapshot() == Untracked(old(Snapshot()), config)
        && trace == old(trace) + [ProcessStop(old(processes)[config].serial)]
    {
      if config !in processes {
        o := Returned;
      } else {
        UntrackedKeeps(Snapshot(), config);
        o := Forget(config);
      }
    }

    /** The body of `remove` for a tracked configuration. */
    method Forget(config: string) returns (o: Outcome)
      requires config in processes
      modifies this
      ensures Snapshot() == Untracked(old(Snapshot()), config)
      ensures o == if config in old(clients) then Returned else Raised(KeyError(config))
      ensures trace == old(trace) + [ProcessStop(old(processes)[config].serial)]
      ensures unchanged(this`updateQueue, this`updateThread)
    {
      trace := trace + [ProcessStop(processes[config].serial)];
      processes := processes - {config};
      order := Without(order, config);
      ports := ports - {config};
      if config in clients {
        clients := clients - {config};
        o := Returned;
      } else {
        o := Raised(KeyError(config));
      }
    }

    /** `restart`: for a tracked configuration the bookkeeping, the outcome
        and the calls made are those of `Restarted`. An untracked
        configuration is a no-op. */
    method Restart(config: string) returns (o: Outcome)
      requires Valid()
      modifies this
      ensures Valid()
      ensures unchanged(this`updateQueue, this`updateThread)
      ensures config !in old(processes) ==> o == Returned && unchanged(this)
      ensures config in old(processes) ==>
        && config in old(ports) && config in old(logQueue)
        && var r := Restarted(old(Snapshot()), config, updateQueue);
           Snapshot() == r.books && o == r.outcome && trace == old(trace) + r.calls
    {
      if config !in processes {
        o := Returned;
      } else {
        RestartedKeeps(Snapshot(), config, updateQueue);
        o := Respawn(config);
      }
    }

    /** The body of `restart` for a tracked configuration. */
    method Respawn(config: string) returns (o: Outcome)
      requires config in processes && config in ports && config in logQueue
      modifies this
      ensures var r := Restarted(old(Snapshot()), config, updateQueue);
        Snapshot() == r.books && o == r.outcome && trace == old(trace) + r.calls
      ensures unchanged(this`updateQueue, this`updateThread)
    {
      var p := processes[config];
      if !p.alive {
        processes := processes[config := p.(alive := true)];
        o := Returned;
        trace := trace + [ProcessStart(p.serial)];
      } else if config !in clients {
        processes := processes[config := p.(alive := false)];
        o := Raised(KeyError(config));
        trace := trace + [ProcessTerminate(p.serial)];
      } else {
        if logQueue[config] == None {
          logQueue := logQueue[config := Some(QueueRef(serial))];
          serial := serial + 1;
        }
        var replacement := Process(serial, config, ports[config], logQueue[config], updateQueue, false);
        serial := serial + 1;
        processes := processes[config := replacement.(alive := true)];
        o := Returned;
        trace := trace + [ProcessTerminate(p.serial), ProcessStart(replacement.serial)];
      }
    }

    /** `stop_all`: calls `stop` on every tracked process, in dict order; the
        processes become `Stopped` and every entry stays. */
    method StopAll()
      requires Valid()
      modifies this
      ensures unchanged(this`order, this`ports, this`clients, this`logQueue, this`logThread,
                        this`updateQueue, this`updateThread, this`serial)
      ensures Valid()
      ensures forall c :: c in order ==> c in old(processes)
      ensures processes == Stopped(old(processes), order)
      ensures trace == old(trace) + SweepEvents(StopEach, order, old(processes))
    {
      ghost var b := Snapshot();
      StoppedKeeps(b);
      var stopped;
      ghost var calls;
      stopped, calls := StopSweep(order, processes);
      processes := stopped;
      trace := trace + calls;
    }

    /** `restart_all`: calls the process's own `restart` on every tracked
        process, in dict order; the bookkeeping is left as it is. */
    method RestartAll()
      requires Valid()
      modifies this
      ensures unchanged(this`processes, this`order, this`ports, this`clients, this`logQueue, this`logThread,
                        this`updateQueue, this`updateThread, this`serial)
      ensures Valid()
      ensures trace == old(trace) + SweepEvents(RestartEach, order, processes)
    {
      ghost var calls: seq<Event> := [];
      var i := 0;
      while i < |order|
        invariant 0 <= i <= |order|
        invariant unchanged(this)
        invariant calls == SweepEvents(RestartEach, order[..i], processes)
      {
        calls := calls + [ProcessRestart(processes[order[i]].serial)];
        SweepNext(RestartEach, order, processes, i);
        i := i + 1;
      }
      assert order[..i] == order;
      trace := trace + calls;
    }

    /** `create_all`: adds the configurations in turn and stops at the first
        `add` that does not return. */
    method CreateAll(configs: seq<string>, envs: seq<AddEnv>) returns (o: Outcome, added: nat)
      requires Valid()
      requires |envs| == |configs|
      modifies this
      ensures Valid()
      ensures added <= |configs|
      ensures o == Returned <==> added == |configs|
      ensures forall j :: 0 <= j < added ==> configs[j] in processes
      ensures old(processes).Keys <= processes.Keys
      ensures unchanged(this`updateQueue, this`updateThread)
    {
      o, added := Returned, 0;
      while added < |configs| && o == Returned
        invariant Valid()
        invariant added <= |configs|
        invariant o != Returned ==> added < |configs|
        invariant added == |configs| ==> o == Returned
        invariant forall j :: 0 <= j < added ==> configs[j] in processes
        invariant old(processes).Keys <= processes.Keys
        invariant unchanged(this`updateQueue, this`updateThread)
        decreases |configs| - added, if o == Returned then 1 else 0
      {
        o := Add(configs[added], envs[added]);
        if o == Returned {
          added := added + 1;
        }
      }
    }

    /** `get_client`: the client of `config`, or None when it has none. */
    function GetClient(config: string): (r: Option<Client>)
      reads this
      ensures r.Some? <==> config in clients
      ensures r.Some? ==> r.value == clients[config]
    {
      if config in clients then Some(clients[config]) else None
    }

    /** The shape shared by the query and command forwarders: the reply of the
        client of `config` to `call`, or None when there is no client. */
    function Forward(config: string, call: Call, server: (Client, Call) -> Reply): (r: Option<Reply>)
      reads this
      ensures r.Some? <==> config in clients
      ensures r.Some? ==> r.value == server(clients[config], call)
    {
      match GetClient(config)
      case None => None
      case Some(client) => Some(server(client, call))
    }

    /** `gui_args`: the worker's argument schema for `task`. */
    function GuiArgs(config: string, task: string, server: (Client, Call) -> Reply): (r: Option<Reply>)
      reads this
      ensures r.Some? <==> config in clients
      ensures r.Some? ==> r.value == server(clients[config], FetchArgs(task))
    {
      Forward(config, FetchArgs(task), server)
    }

    /** `gui_task`: the worker's current values for `task`. */
    function GuiTask(config: string, task: string, server: (Client, Call) -> Reply): (r: Option<Reply>)
      reads this
      ensures r.Some? <==> config in clients
      ensures r.Some? ==> r.value == server(clients[config], FetchTask(task))
    {
      Forward(config, FetchTask(task), server)
    }

    /** The reply of a `gui_set_task` call as a bool: False without a client,
        otherwise the truthiness of the reply. */
    function SetTaskReply(config: string, call: Call, server: (Client, Call) -> Reply): (ok: bool)
      reads this
      ensures ok <==> config in clients && Truthy(server(clients[config], call))
    {
      match Forward(config, call, server)
      case None => false
      case Some(reply) => Truthy(reply)
    }

    /** `gui_set_task`, for a string value. */
    function GuiSetTask(config: string, task: string, group: string, arg: string, value: string,
                        server: (Client, Call) -> Reply): (ok: bool)
      reads this
      ensures ok <==> config in clients && Truthy(server(clients[config], SetTask(task, group, arg, Str(value))))
    {
      SetTaskReply(config, SetTask(task, group, arg, Str(value)), server)
    }

    /** `gui_set_task_bool`, for a bool value. */
    function GuiSetTaskBool(config: string, task: string, group: string, arg: string, value: bool,
                            server: (Client, Call) -> Reply): (ok: bool)
      reads this
      ensures ok <==> config in clients && Truthy(server(clients[config], SetTask(task, group, arg, Flag(value))))
    {
      SetTaskReply(config, SetTask(task, group, arg, Flag(value)), server)
    }

    /** `gui_set_task_number`, for a number. */
    function GuiSetTaskNumber(config: string, task: string, group: string, arg: string, value: real,
                              server: (Client, Call) -> Reply): (ok: bool)
      reads this
      ensures ok <==> config in clients && Truthy(server(clients[config], SetTask(task, group, arg, Number(value))))
    {
      SetTaskReply(config, SetTask(task, group, arg, Number(value)), server)
    }

    /** The payload part of `gui_mirror_image`: the chunks the worker streams,
        written one after the other into one buffer; None without a client. */
    method GuiMirrorImage(config: string, stream: Client -> seq<seq<byte>>) returns (image: Option<seq<byte>>)
      ensures image.Some? <==> config in clients
      ensures image.Some? ==> image.value == Concat(stream(clients[config]))
    {
      if config !in clients {
        image := None;
      } else {
        var chunks := stream(clients[config]);
        var buffer: seq<byte> := [];
        for i := 0 to |chunks|
          invariant buffer == Concat(chunks[..i])
        {
          ConcatAppend(chunks[..i], [chunks[i]]);
          assert chunks[..i + 1] == chunks[..i] + [chunks[i]];
          assert Concat([chunks[i]]) == chunks[i] by {
            assert [chunks[i]][1..] == [];
          }
          buffer := buffer + chunks[i];
        }
        assert chunks[..|chunks|] == chunks;
        image := Some(buffer);
      }
    }

    /** `log_thread_func`, run over the reads `events` it makes of the queue
        recorded for `config`: nothing is emitted without a queue; otherwise
        each entry that is not None is emitted as `(config, text)`, None
        entries and timeouts are skipped, and the first other exception ends
        the thread. */
    method RunLogThread(config: string, events: seq<QueueEvent>) returns (emitted: seq<(string, string)>)
      ensures (config !in logQueue || logQueue[config] == None) ==> emitted == []
      ensures config in logQueue && logQueue[config] != None ==> emitted == Drained(config, events)
    {
      var q := if config in logQueue then logQueue[config] else None;
      emitted := [];
      if q != None {
        var i := 0;
        var reading := true;
        while reading && i < |events|
          invariant 0 <= i <= |events|
          invariant reading ==> emitted + Drained(config, events[i..]) == Drained(config, events)
          invariant !reading ==> emitted == Drained(config, events)
          decreases |events| - i, if reading then 1 else 0
        {
          assert events[i..][1..] == events[i + 1..];
          match events[i]
          case Failed =>
            reading := false;
          case TimedOut =>
            i := i + 1;
          case Got(None) =>
            i := i + 1;
          case Got(Some(text)) =>
            emitted := emitted + [(config, text)];
            i := i + 1;
        }
        assert reading ==> events[i..] == [];
      }
    }
  }
}

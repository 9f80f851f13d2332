/** The supervisor's bookkeeping as a value, and what each of its operations
    does to it: the five dictionaries of the process manager (processes,
    ports, clients, log queues, log threads), the key order of `processes`,
    and the counter that hands out object identities. The process manager
    class specifies its methods by the functions here. */
module Bookkeeping {
  import opened Records
  import opened PortProbe

  predicate Distinct(s: seq<string>)
  {
    forall i, j :: 0 <= i < j < |s| ==> s[i] != s[j]
  }

  /** The keys `s` in order with `x` deleted; a Python dict keeps the order
      of the remaining keys on `del`. */
  function Without(s: seq<string>, x: string): (r: seq<string>)
    ensures forall y :: y in r <==> y in s && y != x
    ensures x !in s ==> r == s
  {
    if s == [] then []
    else if s[0] == x then Without(s[1..], x)
    else [s[0]] + Without(s[1..], x)
  }

  /** Deleting a key keeps the remaining keys distinct. */
  lemma {:induction false} WithoutDistinct(s: seq<string>, x: string)
    requires Distinct(s)
    ensures Distinct(Without(s, x))
  {
    if s != [] {
      assert Distinct(s[1..]);
      WithoutDistinct(s[1..], x);
      if s[0] != x {
        assert s[0] !in s[1..];
        var r := Without(s, x);
        assert r == [s[0]] + Without(s[1..], x);
        forall i, j | 0 <= i < j < |r| ensures r[i] != r[j] {
          if i == 0 {
            assert r[j] in Without(s[1..], x);
          } else {
            assert r[i] == Without(s[1..], x)[i - 1];
            assert r[j] == Without(s[1..], x)[j - 1];
          }
        }
      }
    }
  }

  /** Deleting a key keeps the keys before it and the keys after it in
      their order. */
  lemma {:induction false} WithoutMiddle(a: seq<string>, x: string, b: seq<string>)
    requires x !in a && x !in b
    ensures Without(a + [x] + b, x) == a + b
  {
    if a == [] {
      assert a + [x] + b == [x] + b;
      assert ([x] + b)[1..] == b;
    } else {
      assert (a + [x] + b)[0] == a[0];
      assert (a + [x] + b)[1..] == a[1..] + [x] + b;
      WithoutMiddle(a[1..], x, b);
      assert a + b == [a[0]] + (a[1..] + b);
    }
  }

  /** Deleting a key that was appended last gives back the keys before it:
      the case of `WithoutMiddle` with nothing after the key, the one
      `RemoveUndoesAdd` needs. */
  lemma WithoutLast(s: seq<string>, x: string)
    requires x !in s
    ensures Without(s + [x], x) == s
  {
    WithoutMiddle(s, x, []);
    assert s + [x] + [] == s + [x] && s + [] == s;
  }

  /** The two loops that call one method on every tracked process. */
  datatype Sweep = StopEach | RestartEach

  function SweepEvent(sweep: Sweep, process: Serial): (e: Event)
  {
    match sweep
    case StopEach => ProcessStop(process)
    case RestartEach => ProcessRestart(process)
  }

  /** The calls a sweep makes, visiting the keys `order` in turn. */
  function SweepEvents(sweep: Sweep, order: seq<string>, procs: map<string, Process>): (events: seq<Event>)
    requires forall c :: c in order ==> c in procs
    ensures |events| == |order|
    ensures forall k :: 0 <= k < |order| ==> events[k] == SweepEvent(sweep, procs[order[k]].serial)
  {
    if order == [] then []
    else SweepEvents(sweep, order[..|order| - 1], procs) + [SweepEvent(sweep, procs[order[|order| - 1]].serial)]
  }

  /** A snapshot of the manager's bookkeeping. */
  datatype Books = Books(
    processes: map<string, Process>,
    order: seq<string>,
    ports: map<string, int>,
    clients: map<string, Client>,
    logQueue: map<string, Option<QueueRef>>,
    logThread: map<string, ThreadRec>,
    serial: nat)

  /** The consistency kept between the dictionaries for one configuration `c`:
      a tracked process is keyed by its own configuration and bound to the
      recorded port and log queue; ports lie in the drawn range; a client
      was connected, if at all, to the recorded port; the log thread of `c`
      drains `c`; every identity on record was handed out already. */
  ghost predicate EntryOk(b: Books, c: string)
  {
    && (c in b.processes <==> c in b.order)
    && (c in b.processes ==>
          && c in b.ports && c in b.logQueue
          && b.processes[c].config == c
          && b.processes[c].port == b.ports[c]
          && b.processes[c].logQueue == b.logQueue[c]
          && b.processes[c].serial < b.serial)
    && (c in b.ports ==> PortBase <= b.ports[c] <= PortBase + PortSpan)
    && (c in b.clients ==>
          && c in b.ports
          && b.clients[c].serial < b.serial
          && (b.clients[c].endpoint == None || b.clients[c].endpoint == Some(b.ports[c])))
    && (c in b.logQueue && b.logQueue[c].Some? ==> b.logQueue[c].value.serial < b.serial)
    && (c in b.logThread ==> b.logThread[c].target == LogDrain(c) && b.logThread[c].serial < b.serial)
  }

  /** The manager's invariant: `ports` has exactly the tracked configurations,
      a client only for a tracked one, a log queue and a log thread for every
      tracked one (`remove` keeps both; see `Untracked`); `order` lists
      the tracked configurations once each; and every configuration is
      consistent. */
  ghost predicate Consistent(b: Books)
  {
    && Distinct(b.order)
    && (forall i :: 0 <= i < |b.order| ==> b.order[i] in b.processes)
    && b.ports.Keys == b.processes.Keys
    && b.clients.Keys <= b.processes.Keys
    && b.processes.Keys <= b.logQueue.Keys
    && b.logQueue.Keys == b.logThread.Keys
    && (forall c :: EntryOk(b, c))
  }

  /** No two configurations hold the same port. */
  predicate PortsDistinct(ports: map<string, int>)
  {
    forall a, b :: a in ports && b in ports && a != b ==> ports[a] != ports[b]
  }

  /** How one operation ends: the new bookkeeping, the outcome, and the calls
      it made on foreign objects, in order. */
  datatype Step = Step(books: Books, outcome: Outcome, calls: seq<Event>)

  /** `start_log`: a log queue for `config` only if it has none, then a log
      thread (not started) only if it has none. */
  function WithLog(b: Books, config: string): (r: Books)
    ensures config in r.logQueue && config in r.logThread
    ensures r.processes == b.processes && r.order == b.order && r.ports == b.ports && r.clients == b.clients
    ensures config in b.logQueue ==> r.logQueue == b.logQueue
    ensures config !in b.logQueue ==>
      && r.logQueue == b.logQueue[config := r.logQueue[config]]
      && r.logQueue[config].Some? && b.serial <= r.logQueue[config].value.serial < r.serial
    ensures config in b.logThread ==> r.logThread == b.logThread
    ensures config !in b.logThread ==>
      && r.logThread == b.logThread[config := r.logThread[config]]
      && r.logThread[config].target == LogDrain(config) && !r.logThread[config].started
      && b.serial <= r.logThread[config].serial < r.serial
    ensures b.serial <= r.serial
  {
    var queued := if config in b.logQueue then b
                  else b.(logQueue := b.logQueue[config := Some(QueueRef(b.serial))], serial := b.serial + 1);
    if config in queued.logThread then queued
    else queued.(logThread := queued.logThread[config := ThreadRec(queued.serial, LogDrain(config), false)],
                 serial := queued.serial + 1)
  }

  /** What `add` writes for an untracked configuration `config` once a free
      port is drawn, before it starts anything: the port, the log pipeline,
      and a process bound to the port and to the log queue on record, last in
      the key order. */
  function Recorded(b: Books, config: string, port: int, update: Option<QueueRef>): (r: Books)
    requires config !in b.processes
    ensures config in r.processes && r.processes == b.processes[config := r.processes[config]]
    ensures r.order == b.order + [config]
    ensures r.ports == b.ports[config := port]
    ensures r.clients == b.clients
    ensures config in r.logQueue && config in r.logThread
    ensures r.processes[config] == Process(r.processes[config].serial, config, port, r.logQueue[config], update, false)
    ensures b.serial <= r.processes[config].serial < r.serial
    // the log queue and the log thread on record are reused
    ensures config in b.logQueue ==> r.logQueue == b.logQueue
    ensures config !in b.logQueue ==>
      && r.logQueue == b.logQueue[config := r.logQueue[config]]
      && r.logQueue[config].Some? && b.serial <= r.logQueue[config].value.serial < r.serial
    ensures config in b.logThread ==> r.logThread == b.logThread
    ensures config !in b.logThread ==>
      && r.logThread == b.logThread[config := r.logThread[config]]
      && r.logThread[config].target == LogDrain(config) && !r.logThread[config].started
      && b.serial <= r.logThread[config].serial < r.serial
  {
    var w := WithLog(b.(ports := b.ports[config := port]), config);
    var p := Process(w.serial, config, port, w.logQueue[config], update, false);
    w.(processes := w.processes[config := p], order := w.order + [config], serial := w.serial + 1)
  }

  /** The rest of `add`, on the bookkeeping `w` that `Recorded` wrote: the
      log thread of `config` is started, which raises when it was started
      before; then the client is created, recorded and connected to `port`,
      either of which may raise; last the process is started. */
  function Launched(w: Books, config: string, port: int, rpc: Connector): (r: Step)
    requires config in w.processes && config in w.logThread
    ensures r.books.processes ==
      if r.outcome == Returned then w.processes[config := w.processes[config].(alive := true)] else w.processes
    ensures r.books.order == w.order && r.books.ports == w.ports && r.books.logQueue == w.logQueue
    ensures r.books.logThread == w.logThread[config := w.logThread[config].(started := true)]
    ensures w.serial <= r.books.serial
    // a thread started before cannot be started again
    ensures w.logThread[config].started ==>
      && r.outcome == Raised(ThreadStartedTwice(w.logThread[config].serial))
      && r.books.clients == w.clients && r.calls == [ThreadStart(w.logThread[config].serial)]
    ensures !w.logThread[config].started ==>
      match rpc
      case ConstructorRaises =>
        && r.outcome == Raised(ClientCreateFailed)
        && r.books.clients == w.clients
        && r.calls == [ThreadStart(w.logThread[config].serial)]
      case ConnectRaises =>
        && config in r.books.clients
        && r.outcome == Raised(ConnectFailed(port))
        && r.books.clients == w.clients[config := r.books.clients[config]]
        && r.books.clients[config].endpoint == None
        && w.serial <= r.books.clients[config].serial < r.books.serial
        && r.calls == [ThreadStart(w.logThread[config].serial), ClientConnect(r.books.clients[config].serial, port)]
      case Connects =>
        && config in r.books.clients
        && r.outcome == Returned
        && r.books.clients == w.clients[config := r.books.clients[config]]
        && r.books.clients[config].endpoint == Some(port)
        && w.serial <= r.books.clients[config].serial < r.books.serial
        && r.calls == [ThreadStart(w.logThread[config].serial), ClientConnect(r.books.clients[config].serial, port),
                       ProcessStart(w.processes[config].serial)]
  {
    var t := w.logThread[config];
    var p := w.processes[config];
    if t.started then
      Step(w, Raised(ThreadStartedTwice(t.serial)), [ThreadStart(t.serial)])
    else
      var started := w.(logThread := w.logThread[config := t.(started := true)]);
      var client := Client(w.serial, None);
      match rpc
      case ConstructorRaises =>
        Step(started, Raised(ClientCreateFailed), [ThreadStart(t.serial)])
      case ConnectRaises =>
        Step(started.(clients := w.clients[config := client], serial := w.serial + 1),
             Raised(ConnectFailed(port)),
             [ThreadStart(t.serial), ClientConnect(client.serial, port)])
      case Connects =>
        Step(started.(processes := w.processes[config := p.(alive := true)],
                      clients := w.clients[config := client.(endpoint := Some(port))],
                      serial := w.serial + 1),
             Returned,
             [ThreadStart(t.serial), ClientConnect(client.serial, port), ProcessStart(p.serial)])
  }

  /** `add` once a free port is drawn, for an untracked configuration. What
      was written before an exception stays. */
  function Admitted(b: Books, config: string, port: int, update: Option<QueueRef>, rpc: Connector): (r: Step)
    requires config !in b.processes
    ensures config in r.books.processes && r.books.order == b.order + [config]
    ensures config in r.books.ports && r.books.ports[config] == port && r.outcome != StillProbing
    ensures r.books.processes[config].alive <==> r.outcome == Returned
  {
    Launched(Recorded(b, config, port, update), config, port, rpc)
  }

  /** `remove` of a configuration: its process, its port and its client are
      forgotten; its log queue and log thread are kept. */
  function Untracked(b: Books, config: string): (r: Books)
    ensures config !in r.processes && config !in r.ports && config !in r.clients && config !in r.order
    ensures r.processes == b.processes - {config} && r.ports == b.ports - {config} && r.clients == b.clients - {config}
    ensures forall c :: c in r.order <==> c in b.order && c != config
    ensures r.logQueue == b.logQueue && r.logThread == b.logThread && r.serial == b.serial
  {
    b.(processes := b.processes - {config}, order := Without(b.order, config),
       ports := b.ports - {config}, clients := b.clients - {config})
  }

  /** `restart` of a tracked configuration. A process that is not alive is
      started again as the same object. A live one is terminated; then, if
      the configuration has a client, a new process bound to the recorded
      port and log queue (a new queue only where the recorded one is None)
      replaces it and is started; without a client the lookup raises
      `KeyError` and the terminated process stays on record. */
  function Restarted(b: Books, config: string, update: Option<QueueRef>): (r: Step)
    requires config in b.processes && config in b.ports && config in b.logQueue
    ensures r.books.order == b.order && r.books.ports == b.ports && r.books.clients == b.clients
    ensures r.books.logThread == b.logThread && b.serial <= r.books.serial
    ensures config in r.books.logQueue
    ensures config in r.books.processes && r.books.processes == b.processes[config := r.books.processes[config]]
    ensures !b.processes[config].alive ==>
      && r.outcome == Returned
      && r.books.processes[config] == b.processes[config].(alive := true)
      && r.calls == [ProcessStart(b.processes[config].serial)]
      && r.books.logQueue == b.logQueue && r.books.serial == b.serial
    ensures b.processes[config].alive && config !in b.clients ==>
      && r.outcome == Raised(KeyError(config))
      && r.books.processes[config] == b.processes[config].(alive := false)
      && r.calls == [ProcessTerminate(b.processes[config].serial)]
      && r.books.logQueue == b.logQueue && r.books.serial == b.serial
    ensures b.processes[config].alive && config in b.clients ==>
      && r.outcome == Returned
      && r.books.processes[config] ==
           Process(r.books.processes[config].serial, config, b.ports[config], r.books.logQueue[config], update, true)
      && b.serial <= r.books.processes[config].serial < r.books.serial
      && (b.logQueue[config] != None ==> r.books.logQueue == b.logQueue)
      && (b.logQueue[config] == None ==> r.books.logQueue == b.logQueue[config := Some(QueueRef(b.serial))])
      && r.calls == [ProcessTerminate(b.processes[config].serial), ProcessStart(r.books.processes[config].serial)]
  {
    var p := b.processes[config];
    if !p.alive then
      Step(b.(processes := b.processes[config := p.(alive := true)]), Returned, [ProcessStart(p.serial)])
    else if config !in b.clients then
      Step(b.(processes := b.processes[config := p.(alive := false)]), Raised(KeyError(config)),
           [ProcessTerminate(p.serial)])
    else
      var healed := if b.logQueue[config] == None
                    then b.(logQueue := b.logQueue[config := Some(QueueRef(b.serial))], serial := b.serial + 1)
                    else b;
      var replacement := Process(healed.serial, config, b.ports[config], healed.logQueue[config], update, true);
      Step(healed.(processes := b.processes[config := replacement], serial := healed.serial + 1),
           Returned,
           [ProcessTerminate(p.serial), ProcessStart(replacement.serial)])
  }

  /** `stop_all`'s effect on the processes: every process whose key is in
      `keys` is no longer alive; nothing else changes. */
  function Stopped(procs: map<string, Process>, keys: seq<string>): (r: map<string, Process>)
    requires forall c :: c in keys ==> c in procs
    ensures r.Keys == procs.Keys
    ensures forall c :: c in r ==> r[c] == if c in keys then procs[c].(alive := false) else procs[c]
  {
    if keys == [] then procs
    else
      var before := Stopped(procs, keys[..|keys| - 1]);
      var last := keys[|keys| - 1];
      assert forall c :: c in keys <==> c in keys[..|keys| - 1] || c == last by {
        assert keys == keys[..|keys| - 1] + [last];
      }
      before[last := before[last].(alive := false)]
  }

  /** One more key for a sweep: its call comes after the others. */
  lemma SweepNext(sweep: Sweep, keys: seq<string>, procs: map<string, Process>, i: nat)
    requires i < |keys|
    requires forall x :: x in keys ==> x in procs
    ensures forall x :: x in keys[..i + 1] ==> x in procs
    ensures SweepEvents(sweep, keys[..i + 1], procs) ==
      SweepEvents(sweep, keys[..i], procs) + [SweepEvent(sweep, procs[keys[i]].serial)]
  {
    assert keys[..i + 1][..i] == keys[..i];
  }

  /** One more key for `Stopped`: the process under it is stopped too. */
  lemma StoppedNext(procs: map<string, Process>, keys: seq<string>, i: nat)
    requires i < |keys|
    requires forall x :: x in keys ==> x in procs
    ensures forall x :: x in keys[..i + 1] ==> x in procs
    ensures Stopped(procs, keys[..i + 1]) == Stopped(procs, keys[..i])[keys[i] := procs[keys[i]].(alive := false)]
  {
    assert keys[..i + 1][..i] == keys[..i];
  }

  // ---------------------------------------------------------------------
  // The invariant is kept by every operation.

  /** Handing out more identities keeps the bookkeeping consistent. */
  lemma SerialGrowsKeeps(b: Books, next: nat)
    requires Consistent(b) && b.serial <= next
    ensures Consistent(b.(serial := next))
  {
    forall c ensures EntryOk(b.(serial := next), c) {
      assert EntryOk(b, c);
    }
  }

  /** `start_log` keeps the bookkeeping consistent. */
  lemma WithLogKeeps(b: Books, config: string)
    requires Consistent(b)
    ensures Consistent(WithLog(b, config))
  {
    var r := WithLog(b, config);
    forall c ensures EntryOk(r, c) {
      assert EntryOk(b, c);
    }
  }

  /** What `add` records before starting anything keeps the bookkeeping
      consistent when the port is in the drawn range. */
  lemma RecordedKeeps(b: Books, config: string, port: int, update: Option<QueueRef>)
    requires Consistent(b) && config !in b.processes
    requires PortBase <= port <= PortBase + PortSpan
    ensures Consistent(Recorded(b, config, port, update))
  {
    var w := WithLog(b, config);
    WithLogKeeps(b, config);
    var r := Recorded(b, config, port, update);
    assert EntryOk(w, config);
    forall c ensures EntryOk(r, c) {
      assert EntryOk(w, c);
    }
    forall i, j | 0 <= i < j < |r.order| ensures r.order[i] != r.order[j] {
      if j == |w.order| {
        assert r.order[i] == w.order[i];
      }
    }
  }

  /** Starting the thread, the client and the process keeps the bookkeeping
      consistent. */
  lemma LaunchedKeeps(w: Books, config: string, port: int, rpc: Connector)
    requires Consistent(w) && config in w.processes && w.ports[config] == port
    ensures config in w.logThread
    ensures Consistent(Launched(w, config, port, rpc).books)
  {
    assert EntryOk(w, config);
    var r := Launched(w, config, port, rpc).books;
    forall c ensures EntryOk(r, c) {
      assert EntryOk(w, c);
    }
  }

  /** `add` keeps the bookkeeping consistent when the port is in the drawn
      range. */
  lemma AdmittedKeeps(b: Books, config: string, port: int, update: Option<QueueRef>, rpc: Connector)
    requires Consistent(b) && config !in b.processes
    requires PortBase <= port <= PortBase + PortSpan
    ensures Consistent(Admitted(b, config, port, update, rpc).books)
  {
    RecordedKeeps(b, config, port, update);
    LaunchedKeeps(Recorded(b, config, port, update), config, port, rpc);
  }

  /** `remove` keeps the bookkeeping consistent. */
  lemma UntrackedKeeps(b: Books, config: string)
    requires Consistent(b)
    ensures Consistent(Untracked(b, config))
  {
    var r := Untracked(b, config);
    WithoutDistinct(b.order, config);
    forall c ensures EntryOk(r, c) {
      assert EntryOk(b, c);
    }
    forall i | 0 <= i < |r.order| ensures r.order[i] in r.processes {
      assert r.order[i] in r.order;
    }
  }

  /** `restart` keeps the bookkeeping consistent. */
  lemma RestartedKeeps(b: Books, config: string, update: Option<QueueRef>)
    requires Consistent(b) && config in b.processes
    ensures config in b.ports && config in b.logQueue
    ensures Consistent(Restarted(b, config, update).books)
  {
    assert EntryOk(b, config);
    var r := Restarted(b, config, update).books;
    forall c ensures EntryOk(r, c) {
      assert EntryOk(b, c);
    }
  }

  /** `stop_all` keeps the bookkeeping consistent. */
  lemma StoppedKeeps(b: Books)
    requires Consistent(b)
    ensures forall c :: c in b.order ==> c in b.processes
    ensures Consistent(b.(processes := Stopped(b.processes, b.order)))
  {
    var r := b.(processes := Stopped(b.processes, b.order));
    forall c ensures EntryOk(r, c) {
      assert EntryOk(b, c);
    }
  }

  // ---------------------------------------------------------------------
  // Properties relating several operations.

  /** `start_log` is idempotent: a second call finds both the queue and the
      thread and changes nothing. */
  lemma WithLogIdempotent(b: Books, config: string)
    ensures WithLog(WithLog(b, config), config) == WithLog(b, config)
  {
  }

  /** After `stop_all` no tracked process is alive. */
  lemma StoppedStopsEvery(b: Books)
    requires Consistent(b)
    ensures forall c :: c in b.order ==> c in b.processes
    ensures forall c :: c in Stopped(b.processes, b.order) ==> !Stopped(b.processes, b.order)[c].alive
  {
    forall c | c in b.processes ensures c in b.order {
      assert EntryOk(b, c);
    }
  }

  /** What `add` leaves behind for a new configuration, whatever the
      outcome: the drawn port, a log queue, a started log thread. On success
      also a client connected to that port, after calls that started the log
      thread, then connected the client, then started the process; on
      failure the process was never started. */
  lemma AdmittedWiring(b: Books, config: string, port: int, update: Option<QueueRef>, rpc: Connector)
    requires config !in b.processes
    ensures var r := Admitted(b, config, port, update, rpc);
      && config in r.books.ports && r.books.ports[config] == port
      && config in r.books.logQueue && config in r.books.logThread && r.books.logThread[config].started
      && (r.outcome == Returned ==>
            && config in r.books.clients && r.books.clients[config].endpoint == Some(port)
            && r.calls == [ThreadStart(r.books.logThread[config].serial),
                           ClientConnect(r.books.clients[config].serial, port),
                           ProcessStart(r.books.processes[config].serial)])
      && (r.outcome != Returned ==> forall e :: e in r.calls ==> !e.ProcessStart?)
  {
  }

  /** Two recorded configurations never share a port, as long as the probe
      reports every port recorded so far as in use: the port `add` admits is
      one the probe found free, so it differs from all of them. */
  lemma AdmittedPortsDistinct(b: Books, config: string, port: int, update: Option<QueueRef>, rpc: Connector,
                               probe: set<int>)
    requires config !in b.processes && PortsDistinct(b.ports)
    requires PortsHeld(probe, b.ports) && !PortInUse(probe, port)
    ensures PortsDistinct(Admitted(b, config, port, update, rpc).books.ports)
  {
  }

  /** `remove` after a successful `add` forgets everything the `add` recorded
      except the log queue and the started log thread. */
  lemma RemoveUndoesAdd(b: Books, config: string, port: int, update: Option<QueueRef>)
    requires Consistent(b) && config !in b.processes
    requires !(config in b.logThread && b.logThread[config].started)
    ensures var r := Admitted(b, config, port, update, Connects);
      && r.outcome == Returned
      && Untracked(r.books, config) == b.(logQueue := r.books.logQueue, logThread := r.books.logThread,
                                          serial := r.books.serial)
  {
    var r := Admitted(b, config, port, update, Connects);
    assert EntryOk(b, config);
    WithoutLast(b.order, config);
    assert r.books.processes - {config} == b.processes;
    assert r.books.ports - {config} == b.ports;
    assert r.books.clients - {config} == b.clients;
  }

  /** Re-adding a configuration whose log thread was started: `remove` keeps
      the thread, so the `add` raises at the second `Thread.start()`, before
      any client is created and with the new process never started. */
  lemma ReAddRaises(b: Books, config: string, port: int, update: Option<QueueRef>, rpc: Connector)
    requires Consistent(b) && config in b.processes && b.logThread[config].started
    ensures var r := Admitted(Untracked(b, config), config, port, update, rpc);
      && r.outcome == Raised(ThreadStartedTwice(b.logThread[config].serial))
      && config !in r.books.clients
      && !r.books.processes[config].alive
      && r.calls == [ThreadStart(b.logThread[config].serial)]
  {
  }
}

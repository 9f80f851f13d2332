/** The values the supervisor stores and exchanges: handles on the objects it
    creates (processes, threads, queues, RPC clients), the calls it makes on
    them, the exceptions that can escape its operations, and the replies and
    queue entries that come back from the workers. */
module Records {

  datatype Option<+T> = None | Some(value: T)

  /** Identity of an object the supervisor creates. Two handles with
      different serials stand for two distinct Python objects. */
  type Serial = nat

  /** A queue obtained from the multiprocessing manager. */
  datatype QueueRef = QueueRef(serial: Serial)

  /** What a background thread runs: the log drain of one configuration, or
      the single update drain. */
  datatype Target = LogDrain(config: string) | UpdateDrain

  /** A `threading.Thread`; `started` records whether `start()` was called. */
  datatype ThreadRec = ThreadRec(serial: Serial, target: Target, started: bool)

  /** A zerorpc client; `endpoint` is the loopback port it connected to, or
      None when `connect` has not succeeded. */
  datatype Client = Client(serial: Serial, endpoint: Option<int>)

  /** A `ScriptProcess` built for one configuration; `alive` is what
      `is_alive()` reports. */
  datatype Process = Process(
    serial: Serial,
    config: string,
    port: int,
    logQueue: Option<QueueRef>,
    updateQueue: Option<QueueRef>,
    alive: bool)

  /** A call the supervisor makes on a foreign object, in the order made. */
  datatype Event =
    | ProcessStart(process: Serial)
    | ProcessStop(process: Serial)
    | ProcessTerminate(process: Serial)
    | ProcessRestart(process: Serial)
    | ThreadStart(thread: Serial)
    | ClientConnect(client: Serial, port: int)

  /** Exceptions that escape a supervisor operation. */
  datatype Exception =
    | KeyError(key: string)                  // a dictionary lookup or `del` on a missing key
    | ThreadStartedTwice(thread: Serial)     // Python's RuntimeError from a second `Thread.start()`
    | ClientCreateFailed                     // `zerorpc.Client()` raised
    | ConnectFailed(port: int)               // `connect` to the worker's port raised

  /** How an operation ends. `StillProbing` is the port search of `add` having
      used up the finite stream of random draws it was given with every drawn
      port busy: the source would go on drawing, and nothing has changed yet. */
  datatype Outcome = Returned | Raised(exception: Exception) | StillProbing

  /** `random.randint(0, 200)`: the offset of a candidate port from 40000. */
  type Draw = d: int | 0 <= d <= 200

  const PortBase: int := 40000
  const PortSpan: int := 200

  /** How the zerorpc library behaves during one `add`. */
  datatype Connector = ConstructorRaises | ConnectRaises | Connects

  /** Everything outside the supervisor that one `add` depends on: the ports
      the loopback probe finds in use, the random draws, and the RPC library. */
  datatype AddEnv = AddEnv(probe: set<int>, draws: seq<Draw>, rpc: Connector)

  /** A value sent by one of the `gui_set_task*` commands. */
  datatype Value = Str(s: string) | Flag(b: bool) | Number(x: real)

  /** A request forwarded to a worker's RPC server. */
  datatype Call =
    | FetchArgs(task: string)
    | FetchTask(task: string)
    | SetTask(task: string, group: string, arg: string, value: Value)

  /** A reply as msgpack decodes it. */
  datatype Reply =
    | Nil
    | Boolean(b: bool)
    | Integer(i: int)
    | Float(x: real)
    | Text(s: string)
    | Bytes(data: seq<byte>)
    | List(items: seq<Reply>)
    | Dict(entries: seq<(Reply, Reply)>)

  /** Python truthiness of a reply. */
  predicate Truthy(r: Reply)
  {
    match r
    case Nil => false
    case Boolean(b) => b
    case Integer(i) => i != 0
    case Float(x) => x != 0.0
    case Text(s) => s != ""
    case Bytes(data) => data != []
    case List(items) => items != []
    case Dict(entries) => entries != []
  }

  newtype byte = x: int | 0 <= x < 256

  /** One attempt of a drain thread to read its queue: an entry (Python
      `None` or a value, given by its `str`), the one-second timeout (`Empty`),
      or any other exception. */
  datatype QueueEvent = Got(entry: Option<string>) | TimedOut | Failed
}

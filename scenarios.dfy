/** Runs of the manager from its construction, with the outcomes each
    operation reports. */
module Scenarios {
  import opened Records
  import opened PortProbe
  import opened Bookkeeping
  import opened ProcessManagement

  /** A configuration added, removed and added again. The second `add`
      raises at the second start of the log thread that `remove` kept; the
      process it recorded was never started and has no client. */
  method AddRemoveAdd(config: string, env: AddEnv, env2: AddEnv) returns (m: ProcessManager, outcomes: seq<Outcome>)
    requires env.rpc == Connects
    requires SomeDrawFree(env.probe, env.draws) && SomeDrawFree(env2.probe, env2.draws)
    ensures fresh(m) && m.Valid()
    ensures |outcomes| == 3 && outcomes[0] == Returned && outcomes[1] == Returned
    ensures outcomes[2].Raised? && outcomes[2].exception.ThreadStartedTwice?
    ensures config in m.processes && !m.processes[config].alive && config !in m.clients
  {
    m := new ProcessManager();
    ghost var fresh0 := m.Snapshot();
    var added := m.Add(config, env);
    AdmittedWiring(fresh0, config, m.ports[config], m.updateQueue, Connects);
    ghost var first := m.Snapshot();
    var removed := m.Remove(config);
    var readded := m.Add(config, env2);
    ReAddRaises(first, config, m.ports[config], m.updateQueue, env2.rpc);
    outcomes := [added, removed, readded];
  }

  /** The process such an `add` leaves behind: `restart` starts it, and the
      `restart` after that terminates it and raises `KeyError` on the missing
      client, leaving it terminated. */
  method RestartTwice(m: ProcessManager, config: string) returns (outcomes: seq<Outcome>)
    requires m.Valid()
    requires config in m.processes && !m.processes[config].alive && config !in m.clients
    modifies m
    ensures m.Valid()
    ensures outcomes == [Returned, Raised(KeyError(config))]
    ensures config in m.processes && !m.processes[config].alive
  {
    var restarted := m.Restart(config);
    var again := m.Restart(config);
    outcomes := [restarted, again];
  }

  /** After a successful `add` the forwarders reach the worker's client; for
      a configuration never added they return their sentinels. */
  method QueryAfterAdd(config: string, other: string, env: AddEnv, task: string,
                       server: (Client, Call) -> Reply)
    returns (values: Option<Reply>, missing: Option<Reply>, accepted: bool)
    requires config != other
    requires env.rpc == Connects && SomeDrawFree(env.probe, env.draws)
    ensures values.Some? && missing == None && !accepted
  {
    var m := new ProcessManager();
    var added := m.Add(config, env);
    values := m.GuiTask(config, task, server);
    missing := m.GuiArgs(other, task, server);
    accepted := m.GuiSetTaskBool(other, task, "group", "arg", true, server);
  }
}

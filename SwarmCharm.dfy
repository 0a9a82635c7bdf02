/** The reactive handlers of the swarm charm (reactive/swarm.py): each one
    is guarded by the presence or absence of named flags, may raise a flag,
    and acts on the machine (status messages, the Docker defaults file, the
    docker service, containers, open ports, files). The unit is a class
    holding its flag set and the log of actions taken so far; the actions a
    handler takes are given by a function of its inputs, and the properties
    the charm relies on are lemmas about those functions. */
module SwarmCharm {
  import opened Strings
  import opened SwarmCommands

  // ---------------------------------------------------------------------
  // Flags and handler guards
  // ---------------------------------------------------------------------

  const EtcdAvailable := "etcd.available"
  const EtcdConnected := "etcd.connected"
  const DockerAvailable := "docker.available"
  const SwarmAvailable := "swarm.available"
  const ServerCertificateAvailable := "server certificate available"

  /** The five handlers registered with the reactive framework. */
  datatype Handler = ClusterSetup | Messaging | Notice | RelationBroken | SecureDaemon

  /** The `@when` / `@when_not` guard of each handler. */
  predicate Enabled(h: Handler, flags: set<string>)
  {
    match h
    case ClusterSetup => EtcdAvailable in flags && DockerAvailable in flags && SwarmAvailable !in flags
    case Messaging => SwarmAvailable in flags
    case Notice => EtcdConnected !in flags
    case RelationBroken => SwarmAvailable in flags && EtcdConnected !in flags
    case SecureDaemon => ServerCertificateAvailable in flags
  }

  /** Flags after a handler runs: only the setup handler raises one, and no
      handler clears any. */
  function FlagEffect(h: Handler, flags: set<string>): set<string>
  {
    if h == ClusterSetup then flags + {SwarmAvailable} else flags
  }

  /** The setup handler switches itself off by raising `swarm.available`;
      every other handler leaves its own guard true, so it is enabled again
      on the next dispatch. */
  lemma HandlerReenabled(h: Handler, flags: set<string>)
    requires Enabled(h, flags)
    ensures Enabled(h, FlagEffect(h, flags)) <==> h != ClusterSetup
  {
  }

  /** No handler removes a flag, and the only flag any handler adds is
      `swarm.available`. */
  lemma FlagEffectOnlyRaisesSwarm(h: Handler, flags: set<string>, f: string)
    ensures flags <= FlagEffect(h, flags)
    ensures f != SwarmAvailable ==> (f in FlagEffect(h, flags) <==> f in flags)
    ensures SwarmAvailable in FlagEffect(h, flags) <==> SwarmAvailable in flags || h == ClusterSetup
  {
  }

  // ---------------------------------------------------------------------
  // Actions
  // ---------------------------------------------------------------------

  datatype WorkloadState = Active | Blocked | Maintenance | Waiting

  /** What a handler does to the machine, in the order it does it. A `Run`
      whose command fails aborts the hook; a `RunIgnoringFailure` does not. */
  datatype Action =
    | SetStatus(state: WorkloadState, message: string)
    | RenderDefaults(options: seq<(string, string)>)
    | RestartService(service: string)
    | Run(command: string)
    | RunIgnoringFailure(command: string)
    | OpenPort(port: nat)
    | WriteFile(path: string, content: string)
    | CopyFile(source: string, target: string)

  const BindMessage := "Configuring Docker for TCP connections"
  const AgentMessage := "starting swarm agent"
  const ManagerMessage := "Starting swarm manager"
  const ConfiguredMessage := "Swarm configured. Happy swarming"
  const LeaderMessage := "Swarm leader running"
  const FollowerMessage := "Swarm follower"
  const PendingMessage := "Pending ETCD connection for swarm"
  const ReconfiguringMessage := "Reconfiguring swarm"

  /** `bind_docker_daemon`. */
  function BindActions(privateIp: string): seq<Action>
  {
    [SetStatus(Maintenance, BindMessage), RenderDefaults(BindDaemonOptions(privateIp)), RestartService("docker")]
  }

  /** `start_swarm_etcd_agent`. */
  function AgentActions(privateIp: string, con: string): seq<Action>
  {
    [SetStatus(Maintenance, AgentMessage), Run(AgentCommand(privateIp, con)), OpenPort(AgentPort)]
  }

  /** `start_swarm_etcd_manager`. */
  function ManagerActions(con: string): seq<Action>
  {
    [SetStatus(Maintenance, ManagerMessage), Run(ManagerCommand(con)), OpenPort(ManagerPort)]
  }

  /** `swarm_etcd_cluster_setup` for the etcd relation's URL. */
  function SetupActions(url: string, isLeader: bool, privateIp: string): seq<Action>
  {
    var con := ConnectionString(url);
    BindActions(privateIp) + AgentActions(privateIp, con)
      + LeaderActions(con, isLeader)
      + [SetStatus(Active, ConfiguredMessage)]
  }

  /** `swarm_messaging`. */
  function MessagingActions(isLeader: bool): seq<Action>
  {
    [SetStatus(Active, if isLeader then LeaderMessage else FollowerMessage)]
  }

  /** `user_notice`. */
  function NoticeActions(): seq<Action>
  {
    [SetStatus(Blocked, PendingMessage)]
  }

  /** `swarm_relation_broken`. */
  function RelationBrokenActions(isLeader: bool): seq<Action>
  {
    [RunIgnoringFailure(KillCommand(AgentName))]
      + (if isLeader then [RunIgnoringFailure(KillCommand(KilledManagerName))] else [])
      + [SetStatus(Waiting, ReconfiguringMessage)]
  }

  /** `secure_docker_daemon`: write the certificate and the CA, copy the
      key, then render the TLS options. */
  function SecureActions(certificate: string, authority: string, serverKeyExists: bool,
                         publicAddress: string, charmDir: Option<string>): seq<Action>
  {
    [ WriteFile(ServerCertFile, certificate),
      WriteFile(CaCertFile, authority),
      CopyFile(ServerKeySource(serverKeyExists, publicAddress), ServerKeyFile),
      RenderDefaults(TlsOptions(charmDir)) ]
  }

  // ---------------------------------------------------------------------
  // Views of an action log
  // ---------------------------------------------------------------------

  /** What one action contributes to each view of a log. */
  function CommandOf(a: Action): seq<string>
  {
    if a.Run? then [a.command] else []
  }

  function IgnoredCommandOf(a: Action): seq<string>
  {
    if a.RunIgnoringFailure? then [a.command] else []
  }

  function PortOf(a: Action): seq<nat>
  {
    if a.OpenPort? then [a.port] else []
  }

  function StatusOf(a: Action): seq<(WorkloadState, string)>
  {
    if a.SetStatus? then [(a.state, a.message)] else []
  }

  /** What a view keeps of a whole log, in order. */
  function Collect<T>(actions: seq<Action>, view: Action -> seq<T>): seq<T>
    decreases |actions|
  {
    if actions == [] then [] else view(actions[0]) + Collect(actions[1..], view)
  }

  /** Commands run so that their failure aborts the hook. */
  function Commands(actions: seq<Action>): seq<string>
  {
    Collect(actions, CommandOf)
  }

  /** Commands run with their failure swallowed. */
  function IgnoredCommands(actions: seq<Action>): seq<string>
  {
    Collect(actions, IgnoredCommandOf)
  }

  function OpenedPorts(actions: seq<Action>): seq<nat>
  {
    Collect(actions, PortOf)
  }

  function Statuses(actions: seq<Action>): seq<(WorkloadState, string)>
  {
    Collect(actions, StatusOf)
  }

  /** A view of a log is the concatenation of the views of its parts. */
  lemma {:induction false} CollectAppend<T>(a: seq<Action>, b: seq<Action>, view: Action -> seq<T>)
    ensures Collect(a + b, view) == Collect(a, view) + Collect(b, view)
    decreases |a|
  {
    if a == [] {
      assert a + b == b;
    } else {
      assert (a + b)[0] == a[0];
      assert (a + b)[1..] == a[1..] + b;
      CollectAppend(a[1..], b, view);
    }
  }

  lemma CollectSingle<T>(x: Action, view: Action -> seq<T>)
    ensures Collect([x], view) == view(x)
  {
    assert [x][1..] == [];
  }

  lemma CollectTriple<T>(x: Action, y: Action, z: Action, view: Action -> seq<T>)
    ensures Collect([x, y, z], view) == view(x) + view(y) + view(z)
  {
    assert [x, y, z] == [x] + [y] + [z];
    CollectAppend([x] + [y], [z], view);
    CollectAppend([x], [y], view);
    CollectSingle(x, view);
    CollectSingle(y, view);
    CollectSingle(z, view);
  }

  /** A command is among those run exactly when the log runs it. */
  lemma {:induction false} CommandsMembership(actions: seq<Action>, c: string)
    ensures c in Commands(actions) <==> Run(c) in actions
    decreases |actions|
  {
    if actions != [] {
      CommandsMembership(actions[1..], c);
      assert actions == [actions[0]] + actions[1..];
    }
  }

  /** The command that starts the container listening on a port: the
      agent on 2375, the manager on 2377. */
  function StartCommand(port: nat, privateIp: string, con: string): string
  {
    if port == AgentPort then AgentCommand(privateIp, con) else ManagerCommand(con)
  }

  /** Every port opened is the agent's or the manager's, and is opened right
      after the command that starts its own container (a failing `Run`
      aborts the hook before the port is opened). */
  predicate PortsFollowStarts(actions: seq<Action>, privateIp: string, con: string)
  {
    forall i :: 0 <= i < |actions| && actions[i].OpenPort? ==>
      actions[i].port in {AgentPort, ManagerPort}
      && 0 < i && actions[i - 1] == Run(StartCommand(actions[i].port, privateIp, con))
  }

  lemma PortsFollowStartsAppend(a: seq<Action>, b: seq<Action>, privateIp: string, con: string)
    requires PortsFollowStarts(a, privateIp, con) && PortsFollowStarts(b, privateIp, con)
    ensures PortsFollowStarts(a + b, privateIp, con)
  {
    forall i | 0 <= i < |a + b| && (a + b)[i].OpenPort?
      ensures (a + b)[i].port in {AgentPort, ManagerPort}
        && 0 < i && (a + b)[i - 1] == Run(StartCommand((a + b)[i].port, privateIp, con))
    {
      if i < |a| {
        assert a[i].OpenPort?;
      } else {
        assert b[i - |a|].OpenPort?;
      }
    }
  }

  // ---------------------------------------------------------------------
  // What each handler does
  // ---------------------------------------------------------------------

  /** The actions the manager adds on the leader. */
  function LeaderActions(con: string, isLeader: bool): seq<Action>
  {
    if isLeader then ManagerActions(con) else []
  }

  /** Any view of the setup log is read off its four parts. */
  lemma SetupViews<T>(url: string, isLeader: bool, privateIp: string, view: Action -> seq<T>)
    ensures var con := ConnectionString(url);
      Collect(SetupActions(url, isLeader, privateIp), view)
        == Collect(BindActions(privateIp), view) + Collect(AgentActions(privateIp, con), view)
           + Collect(LeaderActions(con, isLeader), view) + view(SetStatus(Active, ConfiguredMessage))
  {
    var con := ConnectionString(url);
    var head := BindActions(privateIp) + AgentActions(privateIp, con);
    var m := LeaderActions(con, isLeader);
    assert SetupActions(url, isLeader, privateIp) == head + m + [SetStatus(Active, ConfiguredMessage)];
    CollectAppend(BindActions(privateIp), AgentActions(privateIp, con), view);
    CollectAppend(head, m, view);
    CollectAppend(head + m, [SetStatus(Active, ConfiguredMessage)], view);
    CollectSingle(SetStatus(Active, ConfiguredMessage), view);
  }

  /** Each piece of setup, seen through a view. */
  lemma SetupPartViews<T>(privateIp: string, con: string, isLeader: bool, view: Action -> seq<T>)
    ensures Collect(BindActions(privateIp), view)
         == view(SetStatus(Maintenance, BindMessage)) + view(RenderDefaults(BindDaemonOptions(privateIp)))
            + view(RestartService("docker"))
    ensures Collect(AgentActions(privateIp, con), view)
         == view(SetStatus(Maintenance, AgentMessage)) + view(Run(AgentCommand(privateIp, con)))
            + view(OpenPort(AgentPort))
    ensures Collect(LeaderActions(con, isLeader), view)
         == if isLeader then view(SetStatus(Maintenance, ManagerMessage)) + view(Run(ManagerCommand(con)))
                             + view(OpenPort(ManagerPort))
            else []
  {
    CollectTriple(SetStatus(Maintenance, BindMessage), RenderDefaults(BindDaemonOptions(privateIp)),
                  RestartService("docker"), view);
    CollectTriple(SetStatus(Maintenance, AgentMessage), Run(AgentCommand(privateIp, con)),
                  OpenPort(AgentPort), view);
    CollectTriple(SetStatus(Maintenance, ManagerMessage), Run(ManagerCommand(con)),
                  OpenPort(ManagerPort), view);
  }

  /** Setup always starts the agent, starts the manager exactly when the
      unit is leader, and starts the agent first; both containers use the
      rewritten discovery URL. */
  lemma SetupCommands(url: string, isLeader: bool, privateIp: string)
    ensures var con := ConnectionString(url);
      Commands(SetupActions(url, isLeader, privateIp))
        == [AgentCommand(privateIp, con)] + (if isLeader then [ManagerCommand(con)] else [])
  {
    SetupViews(url, isLeader, privateIp, CommandOf);
    SetupPartViews(privateIp, ConnectionString(url), isLeader, CommandOf);
  }

  /** No setup command has its failure ignored: a failed start aborts it. */
  lemma SetupIgnoresNoFailure(url: string, isLeader: bool, privateIp: string)
    ensures IgnoredCommands(SetupActions(url, isLeader, privateIp)) == []
  {
    SetupViews(url, isLeader, privateIp, IgnoredCommandOf);
    SetupPartViews(privateIp, ConnectionString(url), isLeader, IgnoredCommandOf);
  }

  /** The manager container is started if and only if the unit is leader. */
  lemma SetupStartsManagerIffLeader(url: string, isLeader: bool, privateIp: string)
    ensures Run(ManagerCommand(ConnectionString(url))) in SetupActions(url, isLeader, privateIp) <==> isLeader
  {
    var con := ConnectionString(url);
    SetupCommands(url, isLeader, privateIp);
    CommandsMembership(SetupActions(url, isLeader, privateIp), ManagerCommand(con));
    AgentAndManagerCommandsDiffer(privateIp, con);
  }

  /** Setup opens the agent's port 2375 always and the manager's port 2377
      only on the leader, in that order. */
  lemma SetupPorts(url: string, isLeader: bool, privateIp: string)
    ensures OpenedPorts(SetupActions(url, isLeader, privateIp))
         == [AgentPort] + (if isLeader then [ManagerPort] else [])
  {
    SetupViews(url, isLeader, privateIp, PortOf);
    SetupPartViews(privateIp, ConnectionString(url), isLeader, PortOf);
  }

  /** Each port setup opens comes right after the start of its own
      container (2375 after the agent's `docker run`, 2377 after the
      manager's), so a container that failed to start never has its port
      opened. */
  lemma SetupOpensPortsAfterStarts(url: string, isLeader: bool, privateIp: string)
    ensures PortsFollowStarts(SetupActions(url, isLeader, privateIp), privateIp, ConnectionString(url))
  {
    var con := ConnectionString(url);
    var head := BindActions(privateIp) + AgentActions(privateIp, con);
    var m := LeaderActions(con, isLeader);
    assert SetupActions(url, isLeader, privateIp) == head + m + [SetStatus(Active, ConfiguredMessage)];
    PortsFollowStartsAppend(BindActions(privateIp), AgentActions(privateIp, con), privateIp, con);
    PortsFollowStartsAppend(head, m, privateIp, con);
    PortsFollowStartsAppend(head + m, [SetStatus(Active, ConfiguredMessage)], privateIp, con);
  }

  /** The statuses setup reports, in order: a maintenance message for each
      step (binding the daemon, the agent, and on the leader the manager),
      then the active configured message. */
  lemma {:induction false} SetupStatuses(url: string, isLeader: bool, privateIp: string)
    ensures Statuses(SetupActions(url, isLeader, privateIp))
         == [(Maintenance, BindMessage), (Maintenance, AgentMessage)]
            + (if isLeader then [(Maintenance, ManagerMessage)] else [])
            + [(Active, ConfiguredMessage)]
  {
    SetupViews(url, isLeader, privateIp, StatusOf);
    SetupPartViews(privateIp, ConnectionString(url), isLeader, StatusOf);
  }

  /** Setup leaves the unit active and configured; every status before the
      last is a maintenance status. */
  lemma SetupEndsActive(url: string, isLeader: bool, privateIp: string)
    ensures var st := Statuses(SetupActions(url, isLeader, privateIp));
      |st| == (if isLeader then 4 else 3)
      && st[|st| - 1] == (Active, ConfiguredMessage)
      && forall k :: 0 <= k < |st| - 1 ==> st[k].0 == Maintenance
  {
    SetupStatuses(url, isLeader, privateIp);
  }

  /** The leader reports itself as running the swarm, any other unit as a
      follower; both are active. */
  lemma MessagingStatus(isLeader: bool)
    ensures Statuses(MessagingActions(isLeader)) == [(Active, LeaderMessage)] <==> isLeader
    ensures Statuses(MessagingActions(isLeader)) == [(Active, FollowerMessage)] <==> !isLeader
  {
    CollectSingle(SetStatus(Active, if isLeader then LeaderMessage else FollowerMessage), StatusOf);
  }

  /** Without the etcd relation the unit is blocked and does nothing else. */
  lemma NoticeStatus()
    ensures Statuses(NoticeActions()) == [(Blocked, PendingMessage)]
    ensures Commands(NoticeActions()) == [] && OpenedPorts(NoticeActions()) == []
  {
    CollectSingle(SetStatus(Blocked, PendingMessage), StatusOf);
    CollectSingle(SetStatus(Blocked, PendingMessage), CommandOf);
    CollectSingle(SetStatus(Blocked, PendingMessage), PortOf);
  }

  /** Any view of the teardown log is read off its actions. */
  lemma RelationBrokenViews<T>(isLeader: bool, view: Action -> seq<T>)
    ensures Collect(RelationBrokenActions(isLeader), view)
         == view(RunIgnoringFailure(KillCommand(AgentName)))
            + (if isLeader then view(RunIgnoringFailure(KillCommand(KilledManagerName))) else [])
            + view(SetStatus(Waiting, ReconfiguringMessage))
  {
    var first: seq<Action> := [RunIgnoringFailure(KillCommand(AgentName))];
    var k: seq<Action> := if isLeader then [RunIgnoringFailure(KillCommand(KilledManagerName))] else [];
    var last: seq<Action> := [SetStatus(Waiting, ReconfiguringMessage)];
    CollectAppend(first, k, view);
    CollectAppend(first + k, last, view);
    CollectSingle(RunIgnoringFailure(KillCommand(AgentName)), view);
    CollectSingle(RunIgnoringFailure(KillCommand(KilledManagerName)), view);
    CollectSingle(SetStatus(Waiting, ReconfiguringMessage), view);
  }

  /** Teardown never aborts on a failed kill, kills the agent always and the
      name "swarmmanger" only on the leader, and so never kills the
      "swarmmanager" container setup started; it ends waiting. */
  lemma RelationBrokenKills(isLeader: bool)
    ensures Commands(RelationBrokenActions(isLeader)) == []
    ensures IgnoredCommands(RelationBrokenActions(isLeader))
         == [KillCommand(AgentName)] + (if isLeader then [KillCommand(KilledManagerName)] else [])
    ensures RunIgnoringFailure(KillCommand(ManagerName)) !in RelationBrokenActions(isLeader)
    ensures Statuses(RelationBrokenActions(isLeader)) == [(Waiting, ReconfiguringMessage)]
  {
    RelationBrokenViews(isLeader, CommandOf);
    RelationBrokenViews(isLeader, IgnoredCommandOf);
    RelationBrokenViews(isLeader, StatusOf);
    assert |KillCommand(ManagerName)| != |KillCommand(KilledManagerName)|;
    assert |KillCommand(ManagerName)| != |KillCommand(AgentName)|;
  }

  /** The TLS options point at `<CHARM_DIR>/` followed by exactly the names
      of the three files the handler has just written or copied. The handler
      writes those names relative to the hook's working directory, so the
      options name the written files when the hook runs in a set
      `CHARM_DIR`. The handler runs no command, sets no status and does not
      restart the daemon. */
  lemma SecureOptionsNameWrittenFiles(certificate: string, authority: string, serverKeyExists: bool,
                                      publicAddress: string, charmDir: Option<string>)
    ensures var acts := SecureActions(certificate, authority, serverKeyExists, publicAddress, charmDir);
      |acts| == 4
      && acts[0].WriteFile? && acts[1].WriteFile? && acts[2].CopyFile? && acts[3].RenderDefaults?
      && OptionNames(acts[3].options) == ["tlscert", "tlscacert", "tlskey"]
      && acts[3].options[0].1 == CharmDirText(charmDir) + "/" + acts[0].path
      && acts[3].options[1].1 == CharmDirText(charmDir) + "/" + acts[1].path
      && acts[3].options[2].1 == CharmDirText(charmDir) + "/" + acts[2].target
    ensures forall a :: a in SecureActions(certificate, authority, serverKeyExists, publicAddress, charmDir)
              ==> !a.RestartService? && !a.Run? && !a.SetStatus?
  {
    TlsOptionsShape(charmDir);
  }

  // ---------------------------------------------------------------------
  // The unit
  // ---------------------------------------------------------------------

  /** One unit of the charm: the reactive flags it sees and the actions its
      handlers have taken. */
  class SwarmUnit {
    var flags: set<string>
    var log: seq<Action>

    constructor (initial: set<string>)
      ensures flags == initial && log == []
    {
      flags := initial;
      log := [];
    }

    /** Bind the daemon to TCP and the local socket, then restart it. */
    method BindDockerDaemon(privateIp: string)
      modifies this
      ensures flags == old(flags)
      ensures log == old(log) + BindActions(privateIp)
    {
      log := log + [SetStatus(Maintenance, BindMessage)];
      var opts: seq<(string, string)> := [];
      opts := opts + [("host", "tcp://" + privateIp + ":2375")];
      opts := opts + [("host", "unix:///var/run/docker.sock")];
      assert opts == BindDaemonOptions(privateIp);
      log := log + [RenderDefaults(opts)];
      log := log + [RestartService("docker")];
      assert log == old(log) + BindActions(privateIp);
    }

    /** Start the agent container and open its port. */
    method StartSwarmEtcdAgent(privateIp: string, con: string)
      modifies this
      ensures flags == old(flags)
      ensures log == old(log) + AgentActions(privateIp, con)
    {
      log := log + [SetStatus(Maintenance, AgentMessage)];
      log := log + [Run(AgentCommand(privateIp, con))];
      log := log + [OpenPort(AgentPort)];
    }

    /** Start the manager container and open its port. */
    method StartSwarmEtcdManager(con: string)
      modifies this
      ensures flags == old(flags)
      ensures log == old(log) + ManagerActions(con)
    {
      log := log + [SetStatus(Maintenance, ManagerMessage)];
      log := log + [Run(ManagerCommand(con))];
      log := log + [OpenPort(ManagerPort)];
    }

    /** `swarm_etcd_cluster_setup`. */
    method SwarmEtcdClusterSetup(url: string, isLeader: bool, privateIp: string)
      requires Enabled(ClusterSetup, flags)
      modifies this
      ensures flags == FlagEffect(ClusterSetup, old(flags))
      ensures log == old(log) + SetupActions(url, isLeader, privateIp)
    {
      BindDockerDaemon(privateIp);
      var con := ConnectionString(url);
      StartSwarmEtcdAgent(privateIp, con);
      if isLeader {
        StartSwarmEtcdManager(con);
      }
      flags := flags + {SwarmAvailable};
      log := log + [SetStatus(Active, ConfiguredMessage)];
    }

    /** `swarm_messaging`. */
    method SwarmMessaging(isLeader: bool)
      requires Enabled(Messaging, flags)
      modifies this
      ensures flags == FlagEffect(Messaging, old(flags))
      ensures log == old(log) + MessagingActions(isLeader)
    {
      if isLeader {
        log := log + [SetStatus(Active, LeaderMessage)];
      } else {
        log := log + [SetStatus(Active, FollowerMessage)];
      }
    }

    /** `user_notice`. */
    method UserNotice()
      requires Enabled(Notice, flags)
      modifies this
      ensures flags == FlagEffect(Notice, old(flags))
      ensures log == old(log) + NoticeActions()
    {
      log := log + [SetStatus(Blocked, PendingMessage)];
    }

    /** `swarm_relation_broken`. */
    method SwarmRelationBroken(isLeader: bool)
      requires Enabled(RelationBroken, flags)
      modifies this
      ensures flags == FlagEffect(RelationBroken, old(flags))
      ensures log == old(log) + RelationBrokenActions(isLeader)
    {
      log := log + [RunIgnoringFailure(KillCommand(AgentName))];
      if isLeader {
        log := log + [RunIgnoringFailure(KillCommand(KilledManagerName))];
      }
      log := log + [SetStatus(Waiting, ReconfiguringMessage)];
    }

    /** `secure_docker_daemon`. */
    method SecureDockerDaemon(certificate: string, authority: string, serverKeyExists: bool,
                              publicAddress: string, charmDir: Option<string>)
      requires Enabled(SecureDaemon, flags)
      modifies this
      ensures flags == FlagEffect(SecureDaemon, old(flags))
      ensures log == old(log) + SecureActions(certificate, authority, serverKeyExists, publicAddress, charmDir)
    {
      log := log + [WriteFile(ServerCertFile, certificate)];
      log := log + [WriteFile(CaCertFile, authority)];
      log := log + [CopyFile(ServerKeySource(serverKeyExists, publicAddress), ServerKeyFile)];
      var dir := CharmDirText(charmDir);
      var opts: seq<(string, string)> := [];
      opts := opts + [("tlscert", dir + "/" + ServerCertFile)];
      opts := opts + [("tlscacert", dir + "/" + CaCertFile)];
      opts := opts + [("tlskey", dir + "/" + ServerKeyFile)];
      assert opts == TlsOptions(charmDir);
      log := log + [RenderDefaults(opts)];
    }
  }

  // ---------------------------------------------------------------------
  // Runs of the reactive loop
  // ---------------------------------------------------------------------

  /** One step of the reactive loop: a handler whose guard holds fires, or
      other layers raise and drop flags. Only this charm's setup handler
      touches `swarm.available`. */
  datatype Event = Fire(handler: Handler) | Update(raised: set<string>, dropped: set<string>)

  predicate Allowed(e: Event, flags: set<string>)
  {
    match e
    case Fire(h) => Enabled(h, flags)
    case Update(raised, dropped) => SwarmAvailable !in raised && SwarmAvailable !in dropped
  }

  function After(e: Event, flags: set<string>): set<string>
  {
    match e
    case Fire(h) => FlagEffect(h, flags)
    case Update(raised, dropped) => flags - dropped + raised
  }

  /** Every event of the run is allowed in the flags it meets. */
  predicate ValidRun(flags: set<string>, events: seq<Event>)
    decreases |events|
  {
    events == [] || (Allowed(events[0], flags) && ValidRun(After(events[0], flags), events[1..]))
  }

  function FinalFlags(flags: set<string>, events: seq<Event>): set<string>
    decreases |events|
  {
    if events == [] then flags else FinalFlags(After(events[0], flags), events[1..])
  }

  /** How many times the setup handler fires in a run. */
  function SetupCount(events: seq<Event>): nat
    decreases |events|
  {
    if events == [] then 0
    else (if events[0] == Fire(ClusterSetup) then 1 else 0) + SetupCount(events[1..])
  }

  /** Once raised, `swarm.available` stays: losing the etcd relation does
      not retract it. */
  lemma {:induction false} SwarmAvailableKept(flags: set<string>, events: seq<Event>)
    requires ValidRun(flags, events)
    requires SwarmAvailable in flags
    ensures SwarmAvailable in FinalFlags(flags, events)
    decreases |events|
  {
    if events != [] {
      SwarmAvailableKept(After(events[0], flags), events[1..]);
    }
  }

  /** Setup completes at most once per unit, and never again once
      `swarm.available` is raised, whatever the relations do meanwhile. A
      setup that a failing `docker run` aborts is not a firing here: such a
      hook never reaches `set_state`, and the framework runs setup again. */
  lemma {:induction false} SetupAtMostOnce(flags: set<string>, events: seq<Event>)
    requires ValidRun(flags, events)
    ensures SetupCount(events) <= (if SwarmAvailable in flags then 0 else 1)
    decreases |events|
  {
    if events != [] {
      var next := After(events[0], flags);
      SetupAtMostOnce(next, events[1..]);
      if events[0] == Fire(ClusterSetup) {
        assert SwarmAvailable in next;
      } else {
        assert (SwarmAvailable in next) == (SwarmAvailable in flags);
      }
    }
  }
}

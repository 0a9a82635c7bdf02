/** The pure text builders of the swarm charm (reactive/swarm.py): the
    discovery URL rewrite, the `docker run` and `docker kill` command lines,
    the option lists handed to the Docker daemon configuration, and the
    choice of the server key file. */
module SwarmCommands {
  import opened Strings

  /** Port of the Docker daemon's TCP socket, advertised by the agent. */
  const AgentPort: nat := 2375
  /** Host port the manager container publishes. */
  const ManagerPort: nat := 2377

  const AgentName := "swarmagent"
  const ManagerName := "swarmmanager"
  /** The container name the teardown handler kills on the leader. */
  const KilledManagerName := "swarmmanger"

  datatype Option<T> = None | Some(value: T)

  // ---------------------------------------------------------------------
  // Discovery URL
  // ---------------------------------------------------------------------

  /** The etcd relation's URL with every "http" turned into "etcd". */
  function ConnectionString(url: string): (con: string)
    ensures |con| == |url|
    ensures !Occurs("http", con)
  {
    ReplaceAllLeavesNoPattern(url, "http", "etcd");
    ReplaceAll(url, "http", "etcd")
  }

  /** A plain URL gets the `etcd` scheme; host and port are copied. */
  lemma ConnectionStringHttp(hostPort: string)
    requires !Occurs("http", hostPort)
    ensures ConnectionString("http://" + hostPort) == "etcd://" + hostPort
  {
    ReplaceAllAbsent(hostPort, "http", "etcd");
    ReplaceAllSkip("://", hostPort, "http", "etcd");
    assert "http://" + hostPort == "http" + ("://" + hostPort);
    ReplaceAllLeading("://" + hostPort, "http", "etcd");
  }

  /** A TLS URL gets the `etcds` scheme: only its "http" is rewritten, so
      the trailing "s" of "https" stays. */
  lemma ConnectionStringHttps(hostPort: string)
    requires !Occurs("http", hostPort)
    ensures ConnectionString("https://" + hostPort) == "etcds://" + hostPort
  {
    ReplaceAllAbsent(hostPort, "http", "etcd");
    ReplaceAllSkip("s://", hostPort, "http", "etcd");
    assert "https://" + hostPort == "http" + ("s://" + hostPort);
    ReplaceAllLeading("s://" + hostPort, "http", "etcd");
  }

  /** Rewriting an already rewritten string changes nothing. */
  lemma ConnectionStringIdempotent(url: string)
    ensures ConnectionString(ConnectionString(url)) == ConnectionString(url)
  {
    ReplaceAllAbsent(ConnectionString(url), "http", "etcd");
  }

  // ---------------------------------------------------------------------
  // Container commands
  // ---------------------------------------------------------------------

  /** The fixed words that open the agent's command line. */
  const AgentCommandHead := "docker run --restart always -d --name swarmagent swarm join"
  /** The fixed words that open the manager's command line. */
  const ManagerCommandHead := "docker run  --restart always -d --name swarmmanager -p 2377:2375 swarm manage"

  /** Address the agent advertises: the unit's private address on the
      Docker TCP port. */
  function AdvertiseAddress(ip: string): string
  {
    ip + ":2375"
  }

  /** Cluster key space both containers use in the discovery store. */
  function DiscoveryPath(con: string): string
  {
    con + "/swarm"
  }

  /** `docker run ... swarm join --advertise=<ip>:2375 <con>/swarm`: the
      fixed head, the advertise flag and the discovery path, separated by
      single spaces. */
  function AgentCommand(ip: string, con: string): string
  {
    AgentCommandHead + " " + ("--advertise=" + AdvertiseAddress(ip)) + " " + DiscoveryPath(con)
  }

  /** `docker run  ... -p 2377:2375 swarm manage <con>/swarm`: the fixed
      head (double space kept) and the discovery path. */
  function ManagerCommand(con: string): string
  {
    ManagerCommandHead + " " + DiscoveryPath(con)
  }

  /** `docker kill <name>`. */
  function KillCommand(name: string): string
  {
    "docker kill " + name
  }

  /** A fixed head followed by a space and a plain word splits into the
      head's words and then exactly that word. */
  lemma WordsAfterHead(head: string, x: string)
    requires PlainWord(x)
    ensures Words(head + " " + x) == Words(head) + [x]
  {
    WordsAppend(head, x);
    WordsSingle(x);
  }

  /** A fixed head followed by two space-separated plain words splits into
      the head's words and then exactly those two words. */
  lemma WordsAfterHeadTwo(head: string, x: string, y: string)
    requires PlainWord(x) && PlainWord(y)
    ensures Words(head + " " + x + " " + y) == Words(head) + [x, y]
  {
    WordsAppend(head + " " + x, y);
    WordsAfterHead(head, x);
    WordsSingle(y);
  }

  /** A shell-safe address gives a single advertise argument. */
  lemma AdvertiseFlagIsPlain(ip: string)
    requires ShellSafe(ip)
    ensures PlainWord("--advertise=" + AdvertiseAddress(ip))
  {
    ShellSafeAppend(ip, ":2375");
    ShellSafeAppend("--advertise=", AdvertiseAddress(ip));
  }

  /** A shell-safe connection string gives a single discovery argument. */
  lemma DiscoveryPathIsPlain(con: string)
    requires ShellSafe(con)
    ensures PlainWord(DiscoveryPath(con))
  {
    ShellSafeAppend(con, "/swarm");
  }

  /** For shell-safe inputs the agent's arguments are the fixed head and
      then exactly two more: the advertise flag and the discovery path. */
  lemma AgentCommandWords(ip: string, con: string)
    requires ShellSafe(ip) && ShellSafe(con)
    ensures Words(AgentCommand(ip, con))
         == Words(AgentCommandHead) + ["--advertise=" + AdvertiseAddress(ip), DiscoveryPath(con)]
  {
    AdvertiseFlagIsPlain(ip);
    DiscoveryPathIsPlain(con);
    WordsAfterHeadTwo(AgentCommandHead, "--advertise=" + AdvertiseAddress(ip), DiscoveryPath(con));
  }

  /** For a shell-safe connection string the manager's arguments are the
      fixed head and then exactly one more: the discovery path. */
  lemma ManagerCommandWords(con: string)
    requires ShellSafe(con)
    ensures Words(ManagerCommand(con)) == Words(ManagerCommandHead) + [DiscoveryPath(con)]
  {
    DiscoveryPathIsPlain(con);
    WordsAfterHead(ManagerCommandHead, DiscoveryPath(con));
  }

  /** `docker kill <name>` names exactly one container. */
  lemma KillCommandWords(name: string)
    requires PlainWord(name)
    ensures Words(KillCommand(name)) == Words("docker kill") + [name]
  {
    assert KillCommand(name) == "docker kill" + " " + name;
    WordsAppend("docker kill", name);
    WordsSingle(name);
  }

  /** The agent and the manager are started by different command lines:
      just before the discovery path the agent's line reads "2375 " and the
      manager's "manage ". */
  lemma AgentAndManagerCommandsDiffer(ip: string, con: string)
    ensures AgentCommand(ip, con) != ManagerCommand(con)
  {
    var a := AgentCommand(ip, con);
    var m := ManagerCommand(con);
    assert a[|a| - |con| - 8] == '5';
    assert m[|m| - |con| - 8] == 'e';
  }

  // ---------------------------------------------------------------------
  // Docker daemon options
  // ---------------------------------------------------------------------

  /** Option names, in order. */
  function OptionNames(opts: seq<(string, string)>): (names: seq<string>)
    ensures |names| == |opts|
    ensures forall k :: 0 <= k < |opts| ==> names[k] == opts[k].0
  {
    if opts == [] then [] else [opts[0].0] + OptionNames(opts[1..])
  }

  /** The two `host` bindings `bind_docker_daemon` adds, in order. */
  function BindDaemonOptions(ip: string): seq<(string, string)>
  {
    [("host", "tcp://" + ip + ":2375"), ("host", "unix:///var/run/docker.sock")]
  }

  /** The daemon listens on TCP at exactly the address the agent advertises,
      and also keeps its local socket; the `host` key is repeated. */
  lemma BindDaemonOptionsShape(ip: string)
    ensures OptionNames(BindDaemonOptions(ip)) == ["host", "host"]
    ensures BindDaemonOptions(ip)[0].1 == "tcp://" + AdvertiseAddress(ip)
    ensures BindDaemonOptions(ip)[1].1 == "unix:///var/run/docker.sock"
  {
    var names := OptionNames(BindDaemonOptions(ip));
    assert names[0] == "host" && names[1] == "host";
  }

  /** `'{}'.format(getenv('CHARM_DIR'))`: an unset variable prints as None. */
  function CharmDirText(charmDir: Option<string>): string
  {
    match charmDir
    case Some(d) => d
    case None => "None"
  }

  /** Files `secure_docker_daemon` places in the working directory. */
  const ServerCertFile := "docker.server.crt"
  const CaCertFile := "docker.ca.crt"
  const ServerKeyFile := "docker.server.key"

  /** The three TLS options `secure_docker_daemon` adds, in order. */
  function TlsOptions(charmDir: Option<string>): seq<(string, string)>
  {
    var dir := CharmDirText(charmDir);
    [ ("tlscert", dir + "/" + ServerCertFile),
      ("tlscacert", dir + "/" + CaCertFile),
      ("tlskey", dir + "/" + ServerKeyFile) ]
  }

  /** Each TLS option points into the charm directory at one of the three
      files the handler writes, in the order certificate, CA, key. */
  lemma TlsOptionsShape(charmDir: Option<string>)
    ensures OptionNames(TlsOptions(charmDir)) == ["tlscert", "tlscacert", "tlskey"]
    ensures TlsOptions(charmDir)[0].1 == CharmDirText(charmDir) + "/" + ServerCertFile
    ensures TlsOptions(charmDir)[1].1 == CharmDirText(charmDir) + "/" + CaCertFile
    ensures TlsOptions(charmDir)[2].1 == CharmDirText(charmDir) + "/" + ServerKeyFile
  {
    var names := OptionNames(TlsOptions(charmDir));
    assert names[0] == "tlscert" && names[1] == "tlscacert" && names[2] == "tlskey";
  }

  // ---------------------------------------------------------------------
  // Server key
  // ---------------------------------------------------------------------

  const KeyDirectory := "easy-rsa/easyrsa3/pki/private/"

  /** Key copied to docker.server.key: the `server` key when easy-rsa has
      one, otherwise the key named after the unit's public address. */
  function ServerKeySource(serverKeyExists: bool, publicAddress: string): (path: string)
    ensures serverKeyExists ==> path == KeyDirectory + "server.key"
    ensures !serverKeyExists ==> path == KeyDirectory + publicAddress + ".key"
  {
    var name := if serverKeyExists then "server" else publicAddress;
    assert KeyDirectory + "server" + ".key" == KeyDirectory + "server.key";
    KeyDirectory + name + ".key"
  }
}

# layer-swarm in Dafny

A model of the two pieces of logic in the layer-swarm charm, with proofs about them.

- **The reactive controller** (`reactive/swarm.py`). Five handlers are guarded by the presence or absence of reactive flags:
  - `etcd.available`
  - `docker.available`
  - `swarm.available`
  - `etcd.connected`
  - `server certificate available`

  The handlers do the following:
  - bind the Docker daemon to TCP;
  - start the swarm agent, and the swarm manager on the leader;
  - report status;
  - tear the containers down when etcd goes away;
  - lay down the daemon's TLS files.

  A unit is a class, `SwarmCharm.SwarmUnit`. Its fields are the flag set and the log of actions taken so far. There is one method per handler:
  - its `requires` is the handler's decorator guard;
  - its `ensures` gives the new flag set, through `FlagEffect`;
  - its `ensures` gives the appended actions, through a function of the handler's inputs.

  Lemmas about those functions state what the charm promises. Runs of the reactive loop are modelled as sequences of events. A run is an interleaving of handler firings and flag changes made by other layers.
- **The pure text builders** beside the controller (module `SwarmCommands`):
  - the discovery URL rewrite `replace('http', 'etcd')`;
  - the `docker run` and `docker kill` command lines;
  - the option lists handed to the daemon configuration, as ordered `(option, value)` pairs with duplicate keys kept;
  - the choice of the server key file.
- **The swarmbench parser** (`actions/parse_swarmbench_output.py`, module `SwarmBench`). It has two parts:
  - `parse_output` cuts four timing strings out of the last two log lines, using `splitlines`, `split('|')` and `replace`.
  - `action_set` flattens a nested dictionary into dotted `key=value` assignments.

  The parser's `IndexError`s are modelled as a `Result` carrying the source line that raises. Nothing in the parser is ruled out by a precondition.

The Python string operations these rely on are written out in module `Strings`, with their exact semantics:
- `str.replace`: leftmost-first, non-overlapping, no rescan;
- `str.split(sep)`;
- `str.splitlines()`, with the full set of Python line boundaries;
- the whitespace split that `shlex.split` performs on unquoted text.

Three behaviours of the code are worth stating on their own:
- **`swarm.available` is never retracted.** No handler clears the flag, and losing the etcd relation does not clear it either. Runs of the reactive loop assume that other layers never raise or drop `swarm.available` themselves. Under that assumption, `SwarmAvailableKept` proves that once set, the flag stays set.
- **The handlers are level-triggered.** Every handler except setup stays enabled after it runs (`HandlerReenabled`), so it runs again on the next dispatch.
- **Teardown only kills containers.** It does not remove them. On the leader it kills the name `swarmmanger`, which is not the `swarmmanager` container setup starts.

The model keeps these quirks of the code as written:
- The 99th-percentile pattern `'ms [99th] '` needs a trailing space that the log line lacks, so that field keeps its suffix.
- Every `s` is deleted from the total time.
- The last result key is spelled `results.00th-percentile`.

## Model

| member | source | states |
|---|---|---|
| `SwarmCharm.SwarmUnit.SwarmEtcdClusterSetup` | reactive/swarm.py:24-38 | Enabled only when `etcd.available` and `docker.available` are set and `swarm.available` is not. Its only flag change is raising `swarm.available`. It logs the bind, agent, leader-only manager and final status actions, in order. |
| `SwarmCharm.SwarmUnit.SwarmMessaging` | reactive/swarm.py:41-46 | Enabled by `swarm.available`. Changes no flag and logs the leader or follower status. |
| `SwarmCharm.SwarmUnit.UserNotice` | reactive/swarm.py:49-55 | Enabled when `etcd.connected` is absent. Changes no flag and logs the blocked status. |
| `SwarmCharm.SwarmUnit.SwarmRelationBroken` | reactive/swarm.py:58-77 | Enabled when `swarm.available` is set and `etcd.connected` is not. Changes no flag and logs the two failure-tolerant kills and the waiting status. |
| `SwarmCharm.SwarmUnit.SecureDockerDaemon` | reactive/swarm.py:105-131 | Enabled by `server certificate available`. Changes no flag. Logs the certificate and CA writes, the key copy and the rendering of the three TLS options it builds one by one. |
| `SwarmCharm.SwarmUnit.BindDockerDaemon` | reactive/swarm.py:97-103 | Builds the two `host` options one by one, then logs the status, the rendering of those options and the docker restart. |
| `SwarmCharm.SwarmUnit.StartSwarmEtcdAgent` | reactive/swarm.py:80-86 | Logs the status, the agent's `docker run` and the opening of port 2375. |
| `SwarmCharm.SwarmUnit.StartSwarmEtcdManager` | reactive/swarm.py:89-94 | Logs the status, the manager's `docker run` and the opening of port 2377. |
| `SwarmCharm.Enabled` | reactive/swarm.py:24-105 | The guard of each handler, one per decorator:<br>- setup: `etcd.available` and `docker.available` set, `swarm.available` not (lines 24-25);<br>- messaging: `swarm.available` set (line 41);<br>- notice: `etcd.connected` not set (line 49);<br>- teardown: `swarm.available` set and `etcd.connected` not (lines 58-59);<br>- securing the daemon: `server certificate available` set (line 105).<br>It has no contract of its own; `HandlerReenabled` and the handler methods' `requires` use it. |
| `SwarmCharm.FlagEffect` | reactive/swarm.py:37 | The flags after a handler runs: setup adds `swarm.available`, and every other handler leaves the flags as they were. It has no contract of its own; `FlagEffectOnlyRaisesSwarm` states it. |
| `SwarmCharm.HandlerReenabled` | reactive/swarm.py:24-25 | After a handler fires, its own guard still holds exactly when it is not the setup handler. Setup switches itself off; every other handler runs again on the next dispatch. |
| `SwarmCharm.FlagEffectOnlyRaisesSwarm` | reactive/swarm.py:37 | No handler removes a flag. The only flag any handler adds is `swarm.available`, and only setup adds it. |
| `SwarmCharm.SwarmAvailableKept` | reactive/swarm.py:58-77 | In any valid run, once `swarm.available` is set it is still set at the end, whatever the relations do. A valid run assumes other layers never raise or drop `swarm.available`. |
| `SwarmCharm.SetupAtMostOnce` | reactive/swarm.py:24-37 | In any valid run, setup completes at most once, and never if `swarm.available` was already set. A setup that a failing `docker run` aborts never reaches line 37 and runs again on the next hook; such aborted attempts are not modelled (see "Effects of external commands"). |
| `SwarmCharm.SetupCommands` | reactive/swarm.py:32-36 | The commands setup runs are the agent's and then, only on the leader, the manager's. Both use the rewritten connection string. |
| `SwarmCharm.SetupIgnoresNoFailure` | reactive/swarm.py:85 | No command in setup has its failure swallowed. |
| `SwarmCharm.SetupStartsManagerIffLeader` | reactive/swarm.py:35-36 | The manager's `docker run` is in the setup log if and only if the unit is leader. |
| `SwarmCharm.SetupPorts` | reactive/swarm.py:86 | Setup opens port 2375 always, then port 2377 only on the leader. Port 2377 is opened at line 94. |
| `SwarmCharm.SetupOpensPortsAfterStarts` | reactive/swarm.py:84-86 | Every port setup opens is 2375 or 2377. Port 2375 comes immediately after the agent's `docker run`; port 2377 comes immediately after the manager's `docker run` (lines 93-94). |
| `SwarmCharm.SetupStatuses` | reactive/swarm.py:32-38 | The statuses setup reports, in order: maintenance for binding, for the agent and, on the leader, for the manager; then active "Swarm configured. Happy swarming". |
| `SwarmCharm.SetupEndsActive` | reactive/swarm.py:38 | Setup leaves the unit active and configured. Every status it sets before that is maintenance. It sets 4 statuses on the leader and 3 otherwise. |
| `SwarmCharm.MessagingStatus` | reactive/swarm.py:41-46 | The status is active "Swarm leader running" if and only if the unit is leader, and active "Swarm follower" otherwise. |
| `SwarmCharm.NoticeStatus` | reactive/swarm.py:49-55 | Blocked with "Pending ETCD connection for swarm". Runs no command and opens no port. |
| `SwarmCharm.RelationBrokenKills` | reactive/swarm.py:58-77 | Teardown:<br>- runs no command whose failure aborts;<br>- kills `swarmagent` always, and `swarmmanger` only on the leader;<br>- never kills the `swarmmanager` container that setup started;<br>- ends in waiting "Reconfiguring swarm". |
| `SwarmCharm.SecureOptionsNameWrittenFiles` | reactive/swarm.py:109-131 | The TLS options are `tlscert`, `tlscacert`, `tlskey`, in that order. Each is `<CHARM_DIR>/` followed by the name of the file the handler just wrote or copied. The handler writes those names relative to the hook's working directory, so the options name the written files only when the hook runs in `CHARM_DIR` and that variable is set; unset, the paths begin with `None/`. The handler runs no command, sets no status and does not restart the daemon. |
| `SwarmCharm.BindActions` | reactive/swarm.py:97-103 | The actions of `bind_docker_daemon`: the maintenance status, the rendering of `BindDaemonOptions`, then the docker restart. It has no contract of its own; `SwarmUnit.BindDockerDaemon` builds its options step by step and appends it. |
| `SwarmCharm.AgentActions` | reactive/swarm.py:80-86 | The actions of `start_swarm_etcd_agent`: the status, the agent's `docker run`, then opening port 2375. It has no contract of its own; `SetupCommands`, `SetupPorts` and `SetupOpensPortsAfterStarts` state its part of setup. |
| `SwarmCharm.ManagerActions` | reactive/swarm.py:89-94 | The actions of `start_swarm_etcd_manager`: the status, the manager's `docker run`, then opening port 2377. It has no contract of its own; the setup lemmas state its part of setup. |
| `SwarmCharm.LeaderActions` | reactive/swarm.py:35-36 | The manager's actions on the leader, and nothing otherwise. It has no contract of its own; `SetupStartsManagerIffLeader` states the leader condition. |
| `SwarmCharm.SetupActions` | reactive/swarm.py:24-38 | The actions of `swarm_etcd_cluster_setup`, in order: bind, agent, leader-only manager, then the active status. It has no contract of its own; the `Setup*` lemmas state its commands, ports and statuses. |
| `SwarmCharm.MessagingActions` | reactive/swarm.py:41-46 | The one status `swarm_messaging` sets. It has no contract of its own; `MessagingStatus` states it. |
| `SwarmCharm.NoticeActions` | reactive/swarm.py:49-55 | The one status `user_notice` sets. It has no contract of its own; `NoticeStatus` states it. |
| `SwarmCharm.RelationBrokenActions` | reactive/swarm.py:58-77 | The actions of `swarm_relation_broken`: the swallowed kill of `swarmagent`, on the leader the swallowed kill of `swarmmanger`, then the waiting status. It has no contract of its own; `RelationBrokenKills` states it. |
| `SwarmCharm.SecureActions` | reactive/swarm.py:109-131 | The actions of `secure_docker_daemon`: two writes, the key copy, then the TLS options. It has no contract of its own; `SecureOptionsNameWrittenFiles` states it. |
| `SwarmCommands.ConnectionString` | reactive/swarm.py:33 | The rewrite keeps the URL's length and leaves no `http` in it. |
| `SwarmCommands.ConnectionStringHttp` | reactive/swarm.py:33 | `http://<h:p>` becomes `etcd://<h:p>` when the host and port contain no `http`. |
| `SwarmCommands.ConnectionStringHttps` | reactive/swarm.py:33 | `https://<h:p>` becomes `etcds://<h:p>`: the `s` is kept. |
| `SwarmCommands.ConnectionStringIdempotent` | reactive/swarm.py:33 | Rewriting an already rewritten URL changes nothing. |
| `SwarmCommands.AgentCommand` | reactive/swarm.py:84 | The agent's command line: its fixed head, then `--advertise=<ip>:2375`, then `<con>/swarm`, separated by single spaces. It has no contract of its own; `AgentCommandWords` and `AgentAndManagerCommandsDiffer` state its properties. |
| `SwarmCommands.ManagerCommand` | reactive/swarm.py:92 | The manager's command line: its fixed head (double space kept, mapping `-p 2377:2375`), then `<con>/swarm`. It has no contract of its own; `ManagerCommandWords` and `AgentAndManagerCommandsDiffer` state its properties. |
| `SwarmCommands.KillCommand` | reactive/swarm.py:66-72 | `docker kill <name>`, for `swarmagent` at line 66 and `swarmmanger` at line 72. It has no contract of its own; `KillCommandWords` states how it splits. |
| `SwarmCommands.AgentCommandWords` | reactive/swarm.py:84-85 | For shell-safe inputs, the split agent command is the head's words plus exactly two arguments: the advertise flag and the discovery path. |
| `SwarmCommands.ManagerCommandWords` | reactive/swarm.py:92-93 | For a shell-safe connection string, the split manager command is the head's words plus exactly one argument: the discovery path. |
| `SwarmCommands.KillCommandWords` | reactive/swarm.py:66-68 | `docker kill <name>` splits into the two fixed words and the one container name. |
| `SwarmCommands.AgentAndManagerCommandsDiffer` | reactive/swarm.py:84-92 | The agent's and the manager's command lines are never equal. |
| `SwarmCommands.BindDaemonOptions` | reactive/swarm.py:99-101 | The two `host` options added to a fresh `DockerOpts()`, in order. It has no contract of its own; `BindDaemonOptionsShape` states it. |
| `SwarmCommands.CharmDirText` | reactive/swarm.py:124-127 | What `'{}'.format(getenv('CHARM_DIR'))` prints: the directory, or `None` when the variable is unset. It has no contract of its own. |
| `SwarmCommands.TlsOptions` | reactive/swarm.py:123-130 | The three TLS options added to a fresh `DockerOpts()`, in order. It has no contract of its own; `TlsOptionsShape` states it. |
| `SwarmCommands.BindDaemonOptionsShape` | reactive/swarm.py:99-101 | Exactly two options, both named `host`. The first is TCP on the address the agent advertises; the second is the local socket. |
| `SwarmCommands.TlsOptionsShape` | reactive/swarm.py:123-130 | Exactly `tlscert`, `tlscacert`, `tlskey`, in order, at `<CHARM_DIR>/docker.server.crt`, `/docker.ca.crt` and `/docker.server.key`. An unset `CHARM_DIR` prints as `None`. |
| `SwarmCommands.ServerKeySource` | reactive/swarm.py:117-121 | The `server` key when it exists, otherwise the key named after the public address, in the same easy-rsa directory. |
| `Strings.ReplaceAll` | reactive/swarm.py:33 | Python's `str.replace` for a non-empty pattern: leftmost-first, non-overlapping, with no rescan of replaced text. A replacement of the same length as the pattern keeps the length. |
| `Strings.Split` | actions/parse_swarmbench_output.py:33 | Python's `str.split(sep)` for one character: there is always at least one field, and no field contains the separator. |
| `Strings.SplitLines` | actions/parse_swarmbench_output.py:25 | Python's `str.splitlines()`: no line contains a line boundary, and there are never more lines than characters. |
| `Strings.Words` | reactive/swarm.py:85 | `shlex.split` on unquoted text: no word is empty, and no word contains whitespace. |
| `Strings.ReplaceAllLeavesNoPattern` | reactive/swarm.py:33 | A replacement that cannot recreate the pattern leaves no occurrence of it. |
| `Strings.DeleteCharIsWithout` | actions/parse_swarmbench_output.py:42 | `replace(c, '')` removes every `c` and keeps every other character, in order. |
| `Strings.SplitJoin` | actions/parse_swarmbench_output.py:33 | Splitting separator-free fields joined by the separator gives back those fields. |
| `Strings.JoinSplit` | actions/parse_swarmbench_output.py:33 | Joining the fields of a split gives back the text. |
| `Strings.SplitLinesTerminated` | actions/parse_swarmbench_output.py:25 | `splitlines` on newline-terminated single lines gives back exactly those lines. |
| `Strings.WordsAppend` | reactive/swarm.py:85 | Splitting the text `x + " " + y` into words gives the words of `x`, then the words of `y`. |
| `SwarmBench.ActionSet` | actions/parse_swarmbench_output.py:9-18 | The assignments `action_set` hands to `action-set`: `key=value` for a leaf, and for a dictionary the assignments of each entry under `key.<name>`, in dictionary order. It has no contract of its own; `ActionSetUnderKey` and `ActionSetAppend` state its properties. |
| `SwarmBench.ActionSetUnderKey` | actions/parse_swarmbench_output.py:9-18 | There is one assignment per leaf. Each assignment begins with the key, followed by `=` for a leaf or by `.` for a dictionary entry. |
| `SwarmBench.ActionSetAppend` | actions/parse_swarmbench_output.py:12-15 | A dictionary's entries are emitted in order: one more entry appends its own assignments under `key.<name>`. |
| `SwarmBench.ParseLines` | actions/parse_swarmbench_output.py:33-42 | Succeeds if and only if there are at least two lines and the last has at least three pipe-separated fields. Otherwise it raises `IndexError` at line 33, 38, 39 or 41. A successful total contains no `s`. |
| `SwarmBench.ParseLinesErrors` | actions/parse_swarmbench_output.py:33-41 | Which line raises, in the order the parser indexes: no line at all, then one field, then two fields, then no second-last line. |
| `SwarmBench.LastTwoLinesOnly` | actions/parse_swarmbench_output.py:33-41 | Lines before the last two have no effect on the result. |
| `SwarmBench.TimingFields` | actions/parse_swarmbench_output.py:33 | The last line with every occurrence of `Time per container: ` deleted, split at each pipe: there is at least one field, and no field contains a pipe. |
| `SwarmBench.TimingLineFields` | actions/parse_swarmbench_output.py:31-33 | The summary line splits into three fields, with the leading spaces after each pipe kept. |
| `SwarmBench.ParseSummaryLines` | actions/parse_swarmbench_output.py:30-42 | Given the two summary lines:<br>- the total loses its `s`;<br>- the mean loses `ms [mean] `;<br>- the 90th percentile keeps a leading space;<br>- the 99th percentile keeps `ms [99th]`, because its pattern's trailing space never matches. |
| `SwarmBench.SampleSummary` | actions/parse_swarmbench_output.py:30-31 | The sample summary parses to `27.048`, `535.584`, ` 1252.565` and ` 2002.064ms [99th]`. |
| `SwarmBench.GroupAssignments` | actions/parse_swarmbench_output.py:44-47 | A `{value, units}` group emits `<key>.value=` first, then `<key>.units=`. |
| `SwarmBench.Report` | actions/parse_swarmbench_output.py:44-62 | The four `action_set` calls, in order, each on a `{value, units}` group. It has no contract of its own; `ReportAssignments` states its exact output. |
| `SwarmBench.ReportAssignments` | actions/parse_swarmbench_output.py:44-62 | Exactly eight assignments: the total in `s`, then the mean, the 90th and the "00th" percentile in `ms`, each value before its units. |
| `SwarmBench.ParseOutput` | actions/parse_swarmbench_output.py:21-62 | Reports if and only if the parse succeeds, and then always exactly eight assignments. An `IndexError` reports nothing. |
| `SwarmBench.ParseOutputOfLines` | actions/parse_swarmbench_output.py:25 | On a log of newline-terminated lines, `parse_output` parses exactly those lines and passes any `IndexError` through. |
| `SwarmBench.ParseOutputOfLog` | actions/parse_swarmbench_output.py:21-62 | A log whose last two lines are the summary reports the summary's timings, whatever precedes them. |

## Left out

- **Calls out to the charm framework.** Calls into charmhelpers and charms.reactive are actions in a log or parameters:
  - `status_set`, `open_port`, `service_restart`, `render`, `unitdata.kv` and `leader_get`;
  - `is_leader`, `unit_private_ip` and `getenv('CHARM_DIR')`;
  - the etcd relation's `connection_string()`.

  The framework's dispatch loop is modelled only as the sequences of events in `ValidRun`.
- **Effects of external commands.** The effects of `check_call` and the `docker` subprocesses are not modelled. A failed `docker run` in setup aborts the hook, and the model has no such path: the log records the command as `Run`. The kills in teardown are recorded as `RunIgnoringFailure`, because the source swallows their failures.
- **Command parsing.** `shlex.split` is modelled only for unquoted text (`Strings.Words`). Quoting and escapes are not modelled, because the commands contain none.
- **Rendered daemon options.** `DockerOpts.to_s`, the `/etc/default/docker` template and any persistence inside `charms.docker.dockeropts` are not part of this model. Each rendering is modelled as the ordered option list the charm adds to a fresh `DockerOpts()`.
- **Writing the certificate and CA.** Writing them and copying the key are logged, not performed. If the key-value store or the leader settings return `None`, the source's `write` raises. That case is not modelled; the certificate and CA are strings.
- **The public address.** `unit_get` at reactive/swarm.py:121 is never imported, so that branch raises `NameError`. The model takes the public address as an input instead.
- **Benchmark side effects.** The parser's `Docker().logs`, `print(parsed)`, the `action-set` subprocess and `Benchmark.set_composite_score` are left out. Their inputs and outputs are modelled: the log text in, the assignment strings out.
- **Dictionary order.** `SwarmBench.Value` dictionaries are iterated in insertion order, as Python 3.7 and later guarantee. On Python 3.4 and 3.5, which a bare `python3` could also be, string-hash randomisation can emit a group's `.units=` before its `.value=`. `GroupAssignments` and `ReportAssignments` state the insertion order only.
- **Duplicate dictionary keys.** `SwarmBench.Value` dictionaries may repeat a key, which a Python dict cannot. `action_set`'s behaviour on real dicts is the special case without repeats.
- **The test suite.** tests/20-validate-swarm.py is a deployment test against live machines, and it also covers a Consul variant that this code does not implement.
- **Features outside these files.** A Consul discovery backend, client TLS bundles, leader broadcast of credentials and configuration diffing are not implemented in reactive/swarm.py or the parser, so the model says nothing about them.

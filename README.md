# Xenophyte seed-node proxy: a verified model of the relay core

The Xenophyte seed-node proxy accepts TCP connections on a few listen ports.
For every connection it dials a randomly drawn seed node and relays bytes in
both directions until one side dies. An operator console starts and stops it.
This project models, in Dafny, the in-memory bookkeeping of that relay and
proves what the code promises about it:

- **Session** (`Client.ProxyClient`). A session is alive from construction.
  It draws seed-node hosts until one is neither empty nor the server's own IP,
  then dials it. On failure it closes itself. The close is guarded, so it
  happens at most once. Each buffer to be forwarded is cleaned by a UTF-8
  round trip that drops NUL characters. Two byte pumps forward the whole
  8192-byte receive buffer, not only the bytes just read. A connectivity
  monitor closes the session on the first failed probe.
- **Listener** (`Server.ProxyServerListener`). Each listener keeps a registry
  from client IP to a list of sessions. The model fixes one enumeration
  order of the keys: insertion order (see "## Left out"). It also has:
  - the accept step: the port-to-log-category switch, creating the bucket,
    and appending the session only when its handshake succeeded;
  - the sweep `ClearProxyClientListing`, which closes sessions but never
    removes them;
  - the three counters ALL, ALIVE and DEAD;
  - `StopServer`, which always answers true.
- **Automation** (`Automation.AutomationSystem`). The list of listeners,
  with a clean-up and a shutdown that run over every listener in order, and
  four getters that read the counters of listeners 0 to 3. Its consistency
  is stated over the sessions the listeners hold in the current state, so
  clients accepted after construction keep it (`AcceptOn`, `AcceptThenStop`).
- **Console** (`CommandLine.CommandLineSystem`). The loop runs `help`,
  `addhost`, `stats` and `exit` until the console is closed. `addhost` checks
  the new host, then appends it to the host list. The console and every
  listener share one settings object, as the start-up code wires them, so
  that host is one the listeners' later handshakes can draw. `exit` stops
  every listener and sets the closed flag.
- **Settings** (`Setting.ProxySetting`). The host list is every known
  seed-node key except the server's own IP, in enumeration order. The settings
  also hold the default log threshold and the three default listen ports.

Sockets, the random source, the clock and the task scheduler are foreign to
the core. They become inputs:

- the random draws (`draws`);
- the dial outcome (`dialOk`);
- the read and send outcomes of a pump (`PumpEvent`);
- the connectivity probes (`Probe`);
- whether the server IP parses and the socket binds (`ipParses`, `bindOk`);
- the accepted connections (`Arrival`);
- whether the host typed after `addhost` parses as an IP address
  (`parsesAsIp`).

Every loop runs sequentially over those inputs. The log is a `Logger` whose
`entries` sequence stands for the in-memory queue that `WriteLine` appends to.
Each entry is a message value plus the category (log file) it is routed to.

The model keeps three details of the code that its names or comments do not
suggest:

- The monitor's `clientIsDead` and `seedIsDead` hold "is connected".
  The close therefore reports a dead client socket under the seed-node
  category (`Client.MonitorBlamesOtherSide`).
- Because the whole buffer is cleaned and sent, a read shorter than the one
  before it is forwarded together with the stale tail of the earlier read
  (`Client.PumpResendsStaleBytes`).
- `stats` indexes listeners 0 to 3. The default settings create only three,
  so with the defaults the fourth section fails after its header
  (`CommandLine.CommandLineSystem.ShowStats`). The exception is not caught on
  the console thread, so in the program it ends the whole process. The model
  stops the console loop at that header line and says nothing of what follows.

## Model

| member | source | states |
|---|---|---|
| `Log.Logger.WriteLine` | Xenophyte-SeedNode-Proxy/Log/Function/LogSystem.cs:66-98 | one entry (message, category) is appended to the queue and nothing else changes |
| `Setting.WithoutSelf` | Xenophyte-SeedNode-Proxy/Setting/Object/ProxySetting.cs:32-36 | a host is kept exactly when it is a known key other than the server IP; the server IP is never kept |
| `Setting.WithoutSelfAppend` | Xenophyte-SeedNode-Proxy/Setting/Object/ProxySetting.cs:32-36 | the filter keeps the enumeration order: filtering a concatenation is the concatenation of the filtered parts |
| `Setting.WithoutSelfKeepsOthers` | Xenophyte-SeedNode-Proxy/Setting/Object/ProxySetting.cs:32-36 | keys that do not mention the server IP are kept whole, in order |
| `Setting.WithoutSelfNoDuplicates` | Xenophyte-SeedNode-Proxy/Setting/Object/ProxySetting.cs:32-36 | distinct keys give a host list without duplicates |
| `Setting.ProxySetting.constructor` | Xenophyte-SeedNode-Proxy/Setting/Object/ProxySetting.cs:16-36 | server IP and log path as given; log threshold 10; ports exactly the three defaults in order; host list = the keys without the server IP, in enumeration order |
| `Client.DecodeText` | Xenophyte-SeedNode-Proxy/TCP/Client/ProxyClient.cs:268 | decoding gives one character per byte, with the same code |
| `Client.EncodeText` | Xenophyte-SeedNode-Proxy/TCP/Client/ProxyClient.cs:268 | encoding gives one byte per character, with the same code (the inverse of decoding) |
| `Client.StripNul` | Xenophyte-SeedNode-Proxy/TCP/Client/ProxyClient.cs:268 | the result holds no NUL, every character comes from the input, and it is no longer than the input |
| `Client.RemoveZerosKeepsNonZero` | Xenophyte-SeedNode-Proxy/TCP/Client/ProxyClient.cs:268 | a chunk with no zero byte is forwarded unchanged |
| `Client.RemoveZerosOfZeros` | Xenophyte-SeedNode-Proxy/TCP/Client/ProxyClient.cs:229 | the zero bytes of a fresh buffer vanish from the cleaned packet |
| `Client.CleanIsRemoveZeros` | Xenophyte-SeedNode-Proxy/TCP/Client/ProxyClient.cs:268 | on ASCII input the cleaning removes exactly the zero bytes and keeps every other byte in its order |
| `Client.CleanHasNoZero` | Xenophyte-SeedNode-Proxy/TCP/Client/ProxyClient.cs:268 | whatever the input, the cleaned packet holds no zero byte |
| `Client.CleanStripsNul` | Xenophyte-SeedNode-Proxy/TCP/Client/ProxyClient.cs:268 | [0x41, 0x00, 0x42] is sent as [0x41, 0x42] |
| `Client.CleanOfFilled` | Xenophyte-SeedNode-Proxy/TCP/Client/ProxyClient.cs:236-245 | a plain chunk followed by zero bytes cleans to the chunk itself |
| `Client.PumpForwardsChunks` | Xenophyte-SeedNode-Proxy/TCP/Client/ProxyClient.cs:229-247 | if the buffer is zero past the reads and reads never shrink, each accepted packet is exactly the chunk just read, in read order, up to the first read exception |
| `Client.PumpRelaysInOrder` | Xenophyte-SeedNode-Proxy/TCP/Client/ProxyClient.cs:229-247 | from the fresh 8192-byte buffer, plain traffic whose reads never shrink is relayed byte for byte, in order |
| `Client.PumpResendsStaleBytes` | Xenophyte-SeedNode-Proxy/TCP/Client/ProxyClient.cs:229-268 | a read shorter than the previous one is sent with the stale tail of the previous read, not as itself |
| `Client.InitialSession` | Xenophyte-SeedNode-Proxy/TCP/Client/ProxyClient.cs:69-87 | a new session is alive and consistent, not yet dialled, with no relay started |
| `Client.CloseStep` | Xenophyte-SeedNode-Proxy/TCP/Client/ProxyClient.cs:288-342 | after a close the session is dead, both sockets are closed and the token is cancelled. An alive session logs one "dead" line to the side's category. A dead one changes nothing and logs nothing |
| `Client.CloseIsIdempotent` | Xenophyte-SeedNode-Proxy/TCP/Client/ProxyClient.cs:288-342 | any run of closes, from either side, ends in the state of the first close and logs one line if the session was alive, none otherwise |
| `Client.ClosedStaysClosed` | Xenophyte-SeedNode-Proxy/TCP/Client/ProxyClient.cs:290-295 | a dead session never becomes alive again through closing |
| `Client.SomeDrawAfterFirst` | Xenophyte-SeedNode-Proxy/TCP/Client/ProxyClient.cs:132-136 | when the current draw is rejected and a selectable draw exists, one still exists among the remaining draws |
| `Client.FirstSelectable` | Xenophyte-SeedNode-Proxy/TCP/Client/ProxyClient.cs:130-136 | the redraw loop stops at the first draw naming a host that is neither empty nor the server IP; every earlier draw was rejected |
| `Client.SelectedHostIsValid` | Xenophyte-SeedNode-Proxy/TCP/Client/ProxyClient.cs:130-138 | the chosen target is a listed host, is not empty and is never the server's own IP |
| `Client.HandleStep` | Xenophyte-SeedNode-Proxy/TCP/Client/ProxyClient.cs:110-151 | success exactly when the host list is non-empty, the dial succeeds and the socket was undialled. On success the link is connected, the relay is started and the status is kept. On failure the session is dead; a session that was alive (or consistent) also has both sockets closed and the token cancelled, while an already dead one is not closed again. The target is recorded and consistency is kept. The log is the connect line (or the connect-failure line with the target), then, when an alive session fails, its "dead" line |
| `Client.FirstProbeFailure` | Xenophyte-SeedNode-Proxy/TCP/Client/ProxyClient.cs:195-203 | the first probe in which a socket reports not connected, with every earlier probe fully connected; none exactly when every probe is |
| `Client.FirstProbeFailureAt` | Xenophyte-SeedNode-Proxy/TCP/Client/ProxyClient.cs:195-203 | a failed probe preceded only by good ones is the first failure |
| `Client.NoProbeFailure` | Xenophyte-SeedNode-Proxy/TCP/Client/ProxyClient.cs:195-203 | with every probe fully connected there is no failure |
| `Client.MonitorOutcome` | Xenophyte-SeedNode-Proxy/TCP/Client/ProxyClient.cs:192-209 | a dead session closes at once with `false`. Otherwise the monitor stops after the first failed probe and closes with that probe's client result. With no failure it is still polling |
| `Client.MonitorBlamesOtherSide` | Xenophyte-SeedNode-Proxy/TCP/Client/ProxyClient.cs:197-209 | a dead client socket on the first probe gives `CloseProxyClient(false)`, reported under the seed-node category |
| `Client.ProxyClient.constructor` | Xenophyte-SeedNode-Proxy/TCP/Client/ProxyClient.cs:60-88 | the session is consistent and alive, undialled, and keeps its IP, log, settings, port and categories |
| `Client.ProxyClient.CloseProxyClient` | Xenophyte-SeedNode-Proxy/TCP/Client/ProxyClient.cs:288-342 | the new state and the log are those of `CloseStep`; a dead session is left unchanged and logs nothing |
| `Client.ProxyClient.OpenSeedNodeProxyLink` | Xenophyte-SeedNode-Proxy/TCP/Client/ProxyClient.cs:126-151 | the redraw loop and the dial give the state, answer and log of the link specification (`OpenLink`) |
| `Client.ProxyClient.HandleProxyClient` | Xenophyte-SeedNode-Proxy/TCP/Client/ProxyClient.cs:110-121 | state, answer and log follow `HandleStep`; true keeps the status, false leaves the session dead |
| `Client.ProxyClient.CheckConnectivity` | Xenophyte-SeedNode-Proxy/TCP/Client/ProxyClient.cs:186-217 | it polls until `MonitorOutcome` says: still polling with nothing changed, or the probes used and the close it calls, with that close's state and log |
| `Client.ProxyClient.DoProxyingPacket` | Xenophyte-SeedNode-Proxy/TCP/Client/ProxyClient.cs:225-255 | the packets delivered, the reads consumed and the log are those of the pump specification `Pump` over the fresh buffer; on a dead session one failure line and nothing sent |
| `Client.ProxyClient.ReadUntilPause` | Xenophyte-SeedNode-Proxy/TCP/Client/ProxyClient.cs:236-247 | the inner read loop consumes at least one outcome and keeps the pump's progress. An exception ends the pump exactly where `Pump` does |
| `Client.ReadInto` | Xenophyte-SeedNode-Proxy/TCP/Client/ProxyClient.cs:236 | a read overwrites the front of the buffer with the chunk and leaves the rest as it was |
| `Client.PumpRestFault` | Xenophyte-SeedNode-Proxy/TCP/Client/ProxyClient.cs:251-254 | a read exception ends the pump after one failure line to the side's category |
| `Server.ClassifyPort` | Xenophyte-SeedNode-Proxy/TCP/Server/ProxyServerListener.cs:77-100 | seed-node port to ONLINE, remote-node port to REMOTE, token port to TOKEN (client and seed categories paired); any other port to GENERAL for both |
| `Server.AliveAndDeadMakeAll` | Xenophyte-SeedNode-Proxy/TCP/Server/ProxyServerListener.cs:226-260 | COUNT_ALL = COUNT_ALIVE + COUNT_DEAD |
| `Server.StatCountAppend` | Xenophyte-SeedNode-Proxy/TCP/Server/ProxyServerListener.cs:230-258 | the counter over two runs of sessions is the sum of their counters |
| `Server.AppendToBucket` | Xenophyte-SeedNode-Proxy/TCP/Server/ProxyServerListener.cs:121-129 | appending to an existing bucket inserts the new sessions at one place of the enumeration and moves nothing else |
| `Server.AppendToNewBucket` | Xenophyte-SeedNode-Proxy/TCP/Server/ProxyServerListener.cs:121-129 | with the new key placed last (the insertion order the model fixes for the key enumeration), its sessions end the enumeration |
| `Server.SweepAllClosesEverything` | Xenophyte-SeedNode-Proxy/TCP/Server/ProxyServerListener.cs:192-205 | the full sweep leaves every session dead and consistent, counts all of them, and logs one line per session that was alive |
| `Server.SweepDeadChangesNothing` | Xenophyte-SeedNode-Proxy/TCP/Server/ProxyServerListener.cs:201-205 | the partial sweep changes no consistent session, logs no death notice, and counts exactly the dead sessions |
| `Server.SweepKeepsValid` | Xenophyte-SeedNode-Proxy/TCP/Server/ProxyServerListener.cs:199-210 | every session the sweep leaves behind is consistent |
| `Server.SweepAllLeavesNoneAlive` | Xenophyte-SeedNode-Proxy/TCP/Server/ProxyServerListener.cs:192-205 | after the full sweep ALIVE is 0 and ALL = DEAD = the number of sessions |
| `Server.NoneAliveAfterStop` | Xenophyte-SeedNode-Proxy/TCP/Server/ProxyServerListener.cs:170 | sessions in the states the full sweep gives have no alive one |
| `Server.CountBucket` | Xenophyte-SeedNode-Proxy/TCP/Server/ProxyServerListener.cs:236-256 | the inner counting loop adds the bucket's ALIVE or DEAD count to the running total |
| `Server.SweepRegistry` | Xenophyte-SeedNode-Proxy/TCP/Server/ProxyServerListener.cs:192-213 | the sweep loops leave each session in the state `Sweep` gives, write its log and return its count |
| `Server.SweepKeys` | Xenophyte-SeedNode-Proxy/TCP/Server/ProxyServerListener.cs:193-213 | the outer loop sweeps the buckets key after key, in key order |
| `Server.SweepKey` | Xenophyte-SeedNode-Proxy/TCP/Server/ProxyServerListener.cs:195-212 | one key's bucket is swept and the progress moves one key on |
| `Server.SweepBucket` | Xenophyte-SeedNode-Proxy/TCP/Server/ProxyServerListener.cs:195-212 | the inner loop sweeps one bucket front to back |
| `Server.SweepBucketAt` | Xenophyte-SeedNode-Proxy/TCP/Server/ProxyServerListener.cs:197-210 | one session of a bucket is swept and the progress moves one session on |
| `Server.SweepEntry` | Xenophyte-SeedNode-Proxy/TCP/Server/ProxyServerListener.cs:199-210 | a dead session, or every session when `all`, gets `CloseProxyClient(false)` and is counted; the sweep result grows by that session |
| `Server.CountRegistry` | Xenophyte-SeedNode-Proxy/TCP/Server/ProxyServerListener.cs:228-259 | the counting loops return the counter over every session in enumeration order |
| `Server.CountKey` | Xenophyte-SeedNode-Proxy/TCP/Server/ProxyServerListener.cs:230-258 | one key's bucket adds its count: ALL by its length, ALIVE or DEAD by the inner loop |
| `Server.ProxyServerListener.constructor` | Xenophyte-SeedNode-Proxy/TCP/Server/ProxyServerListener.cs:42-49 | an empty registry; not closed, not created, not listening, scope not cancelled; settings, port and log as given |
| `Server.ProxyServerListener.StartServer` | Xenophyte-SeedNode-Proxy/TCP/Server/ProxyServerListener.cs:57-155 | true exactly when the IP parses and the bind succeeds, with the "started" and "ready" lines. Otherwise one failure line and false. The listener object exists once the IP parsed |
| `Server.ProxyServerListener.AcceptClient` | Xenophyte-SeedNode-Proxy/TCP/Server/ProxyServerListener.cs:102-129 | the new session has the port's categories and runs `HandleStep`. Afterwards the bucket of its IP exists, is the old bucket plus the session exactly when the handshake succeeded, and every other bucket is unchanged. The registered sessions are the old ones plus the new session exactly when the handshake succeeded. A new key is placed last in the key order the model fixes |
| `Server.ProxyServerListener.HandshakeAndRegister` | Xenophyte-SeedNode-Proxy/TCP/Server/ProxyServerListener.cs:128-129 | the handshake follows `HandleStep` and the session is appended once exactly when it succeeded; no other session is added or removed |
| `Server.ProxyServerListener.EnsureBucket` | Xenophyte-SeedNode-Proxy/TCP/Server/ProxyServerListener.cs:121-125 | a bucket exists for the IP afterwards; an existing one is kept; no session moves |
| `Server.ProxyServerListener.AddBucket` | Xenophyte-SeedNode-Proxy/TCP/Server/ProxyServerListener.cs:123 | an absent key gets an empty bucket, placed last in the key order the model fixes |
| `Server.ProxyServerListener.AppendSession` | Xenophyte-SeedNode-Proxy/TCP/Server/ProxyServerListener.cs:129 | the session goes at the end of its IP's bucket and nothing else changes |
| `Server.ProxyServerListener.ClearProxyClientListing` | Xenophyte-SeedNode-Proxy/TCP/Server/ProxyServerListener.cs:190-215 | no session or bucket is removed; each session is left in the state `Sweep` gives; the log is the sweep's lines plus the total closed |
| `Server.ProxyServerListener.GetProxyClientCount` | Xenophyte-SeedNode-Proxy/TCP/Server/ProxyServerListener.cs:226-260 | the counter over the sessions' status flags; read-only |
| `Server.ProxyServerListener.StopServer` | Xenophyte-SeedNode-Proxy/TCP/Server/ProxyServerListener.cs:161-179 | always true and always closed; no session is removed. On a created listener every session is swept closed and ALIVE is 0 afterwards. On one never created the stop throws, the sweep is skipped and the failure is logged |
| `Server.ProxyServerListener.FailToStop` | Xenophyte-SeedNode-Proxy/TCP/Server/ProxyServerListener.cs:165-177 | the flag is set, no session changes, one failure line |
| `Server.ProxyServerListener.CloseListener` | Xenophyte-SeedNode-Proxy/TCP/Server/ProxyServerListener.cs:165-171 | closed, not listening, scope cancelled, every session swept closed, ALIVE 0 |
| `Server.ProxyServerListener.MarkStopped` | Xenophyte-SeedNode-Proxy/TCP/Server/ProxyServerListener.cs:165-168 | closed, not listening, scope cancelled, no session touched |
| `Server.ProxyServerListener.SweepAllAndReport` | Xenophyte-SeedNode-Proxy/TCP/Server/ProxyServerListener.cs:170-171 | the full sweep, then the success line; ALIVE 0 |
| `Server.ProxyServerListener.AcceptLoop` | Xenophyte-SeedNode-Proxy/TCP/Server/ProxyServerListener.cs:69-141 | one step per arrival while open, none when closed (then nothing changes). Buckets, the key order, the registered sessions and the log only grow, and every session that joins is new |
| `Server.ProxyServerListener.AcceptArrival` | Xenophyte-SeedNode-Proxy/TCP/Server/ProxyServerListener.cs:73-140 | a failed accept logs one line and changes nothing else. A connection runs the accept step: the new session, its `HandleStep` state, answer and log, and the registry, key order and sessions exactly as `AcceptClient` states them |
| `Automation.StopLog` | Xenophyte-SeedNode-Proxy/TCP/Server/ProxyServerListener.cs:161-179 | a listener never created logs one failure line; a created one ends with the success line |
| `Automation.StopLogs` | Xenophyte-SeedNode-Proxy/Automation/AutomationSystem.cs:41-45 | the stop lines of every listener, first to last, at least one each |
| `Automation.CleanLog` | Xenophyte-SeedNode-Proxy/TCP/Server/ProxyServerListener.cs:190-215 | cleaning one listener ends with the line giving how many the partial sweep closed |
| `Automation.CleanLogs` | Xenophyte-SeedNode-Proxy/Automation/AutomationSystem.cs:28-32 | the clean lines of every listener, first to last, at least one each |
| `Automation.CleanLogsCountDead` | Xenophyte-SeedNode-Proxy/Automation/AutomationSystem.cs:28-32 | with consistent sessions each listener writes exactly one line, the number of its dead sessions |
| `Automation.AutomationSystem.constructor` | Xenophyte-SeedNode-Proxy/Automation/AutomationSystem.cs:18-21 | the listener list and log are kept as given and the system is consistent; no session set is fixed, so later accepts keep it consistent |
| `Automation.AutomationSystem.AutoCleanProxyServer` | Xenophyte-SeedNode-Proxy/Automation/AutomationSystem.cs:26-33 | every listener is cleaned in order. No session is removed, no session state (so no alive flag and no count) changes, and the log is the clean lines in listener order |
| `Automation.AutomationSystem.CleanOne` | Xenophyte-SeedNode-Proxy/Automation/AutomationSystem.cs:30-31 | cleaning listener `i` moves the progress one listener on |
| `Automation.AutomationSystem.CleanAt` | Xenophyte-SeedNode-Proxy/Automation/AutomationSystem.cs:31 | one listener's partial sweep leaves its session states as they were and writes its clean lines |
| `Automation.AutomationSystem.StopProxyServer` | Xenophyte-SeedNode-Proxy/Automation/AutomationSystem.cs:39-48 | always true. Every listener, none skipped, is stopped as its flag and sessions dictate, and keeps its sessions. The log is the stop lines in listener order |
| `Automation.AutomationSystem.StopOne` | Xenophyte-SeedNode-Proxy/Automation/AutomationSystem.cs:43-44 | stopping listener `i` moves the progress one listener on |
| `Automation.AutomationSystem.StopAt` | Xenophyte-SeedNode-Proxy/Automation/AutomationSystem.cs:44 | one listener is stopped as `StopServer` promises and writes its stop lines |
| `Automation.AutomationSystem.AcceptOn` | Xenophyte-SeedNode-Proxy/TCP/Server/ProxyServerListener.cs:102-129 | a client accepted on one listener after construction keeps the system consistent. The session gets the port's categories, its state, answer and log are those of `HandleStep`, and the listener's registry and key order change as its accept step says. The session is registered exactly when the handshake succeeded, the listener's sessions grow by that one only, and no other listener changes |
| `Automation.AutomationSystem.AcceptThenStop` | Xenophyte-SeedNode-Proxy/Automation/AutomationSystem.cs:39-48 | after a late accept the shutdown still runs and answers true. The answer of the accept is that of `HandleStep` and its lines come before the stop lines. The accepted session is registered exactly when its handshake succeeded, and afterwards no session of a created listener is alive |
| `Automation.AutomationSystem.StoppedNoneAlive` | Xenophyte-SeedNode-Proxy/TCP/Server/ProxyServerListener.cs:165-171 | when every listener is stopped as `StopServer` promises, no session of a created listener is alive |
| `Automation.AutomationSystem.NetworkCount` | Xenophyte-SeedNode-Proxy/Automation/AutomationSystem.cs:59 | the counter of the listener at the index |
| `Automation.AutomationSystem.GetTotalOnlineNetworkConnection` | Xenophyte-SeedNode-Proxy/Automation/AutomationSystem.cs:57-60 | the counter of listener 0; needs at least one listener |
| `Automation.AutomationSystem.GetTotalRemoteHttpNetworkConnection` | Xenophyte-SeedNode-Proxy/Automation/AutomationSystem.cs:67-70 | the counter of listener 1; needs at least two listeners |
| `Automation.AutomationSystem.GetTotalRemoteNetworkConnection` | Xenophyte-SeedNode-Proxy/Automation/AutomationSystem.cs:77-80 | the counter of listener 2; needs at least three listeners |
| `Automation.AutomationSystem.GetTotalTokenNetworkConnection` | Xenophyte-SeedNode-Proxy/Automation/AutomationSystem.cs:87-90 | the counter of listener 3; needs at least four listeners |
| `CommandLine.HelpLog` | Xenophyte-SeedNode-Proxy/CommandLine/CommandLineSystem.cs:54-58 | five general lines, numbered in order |
| `CommandLine.DecideAddHost` | Xenophyte-SeedNode-Proxy/CommandLine/CommandLineSystem.cs:65-72 | rejected as invalid exactly when it does not parse; as a duplicate exactly when it parses and is listed; as self exactly when it parses, is new and is the server IP; added exactly otherwise |
| `CommandLine.HostsAfterAdd` | Xenophyte-SeedNode-Proxy/CommandLine/CommandLineSystem.cs:65-72 | an accepted host is appended once at the end; a rejected one leaves the list unchanged |
| `CommandLine.AddHostLog` | Xenophyte-SeedNode-Proxy/CommandLine/CommandLineSystem.cs:65-72 | nothing is logged exactly when the host is added; otherwise one general line |
| `CommandLine.InitialHostListOk` | Xenophyte-SeedNode-Proxy/Setting/Object/ProxySetting.cs:32-36 | the host list built from distinct keys has no duplicates and no server IP |
| `CommandLine.AddHostKeepsHostListOk` | Xenophyte-SeedNode-Proxy/CommandLine/CommandLineSystem.cs:65-72 | `addhost` keeps "no duplicates" and "server IP absent" |
| `CommandLine.HostsAfterKeepsHostListOk` | Xenophyte-SeedNode-Proxy/CommandLine/CommandLineSystem.cs:46-118 | over any run of commands the host list only grows and keeps both invariants |
| `CommandLine.NetworkCountsAddUp` | Xenophyte-SeedNode-Proxy/CommandLine/CommandLineSystem.cs:79-81 | for every network the printed total is the alive count plus the dead count |
| `CommandLine.StatsLogShape` | Xenophyte-SeedNode-Proxy/CommandLine/CommandLineSystem.cs:75-106 | `stats` prints a whole section per existing listener among the first four, in order. With fewer than four the header of the first missing one is the last line |
| `CommandLine.StatsLoggedDone` | Xenophyte-SeedNode-Proxy/CommandLine/CommandLineSystem.cs:75-106 | when every section is printed or one failed, the failure happened exactly when a listener was missing and the log holds the whole `stats` output |
| `CommandLine.StatsLogAgree` | Xenophyte-SeedNode-Proxy/CommandLine/CommandLineSystem.cs:75-106 | the output depends only on the counters of the networks that `stats` reaches |
| `CommandLine.ExitLog` | Xenophyte-SeedNode-Proxy/CommandLine/CommandLineSystem.cs:109-114 | `exit` logs "closing" first, every listener's stop lines, then "closed" last |
| `CommandLine.StopPointIsFirstEnd` | Xenophyte-SeedNode-Proxy/CommandLine/CommandLineSystem.cs:46-118 | the loop handles the commands up to and including the first `exit` (or failing `stats`) and nothing after, or all of them if there is none; an early stop is always at such a command |
| `CommandLine.CommandLineSystem.constructor` | Xenophyte-SeedNode-Proxy/CommandLine/CommandLineSystem.cs:26-34 | the three collaborators as given and the console not closed; consistent when the listeners use its settings and log |
| `CommandLine.CommandLineSystem.ShowHelp` | Xenophyte-SeedNode-Proxy/CommandLine/CommandLineSystem.cs:52-59 | the five help lines are logged |
| `CommandLine.CommandLineSystem.AddHostCommand` | Xenophyte-SeedNode-Proxy/CommandLine/CommandLineSystem.cs:61-73 | the host list becomes `HostsAfterAdd` of the old one and the log gets the outcome's line |
| `CommandLine.CommandLineSystem.NetworkStat` | Xenophyte-SeedNode-Proxy/CommandLine/CommandLineSystem.cs:79-102 | the getter of network `k` returns that listener's counter and changes no counter |
| `CommandLine.CommandLineSystem.ReadNetwork` | Xenophyte-SeedNode-Proxy/CommandLine/CommandLineSystem.cs:79-81 | the three counters read are those of network `k` |
| `CommandLine.CommandLineSystem.ReadCounts` | Xenophyte-SeedNode-Proxy/CommandLine/CommandLineSystem.cs:78-103 | the counters of the networks `stats` reaches, in order, stopping at the first missing listener |
| `CommandLine.CommandLineSystem.WriteSection` | Xenophyte-SeedNode-Proxy/CommandLine/CommandLineSystem.cs:78-82 | one section's five lines |
| `CommandLine.CommandLineSystem.StatsStep` | Xenophyte-SeedNode-Proxy/CommandLine/CommandLineSystem.cs:78-103 | section `k` is printed, or only its header when its listener is missing (and that ends the command) |
| `CommandLine.CommandLineSystem.WriteStats` | Xenophyte-SeedNode-Proxy/CommandLine/CommandLineSystem.cs:78-103 | the output is `StatsLog` of the counters, and it fails exactly when fewer than four are given |
| `CommandLine.CommandLineSystem.WriteReached` | Xenophyte-SeedNode-Proxy/CommandLine/CommandLineSystem.cs:78-103 | printing the counters read gives the `stats` output of every listener's counters |
| `CommandLine.CommandLineSystem.ShowStats` | Xenophyte-SeedNode-Proxy/CommandLine/CommandLineSystem.cs:75-106 | `stats` logs `StatsLog` of the counters before the command, changes nothing else, and fails exactly when fewer than four listeners exist |
| `CommandLine.CommandLineSystem.Execute` | Xenophyte-SeedNode-Proxy/CommandLine/CommandLineSystem.cs:50-118 | only `exit` sets the closed flag and stops the listeners; only `addhost` changes the host list; `stats` fails exactly when a listener is missing; no session is added or removed, and any command other than `exit` leaves every listener and session unchanged; the log is what the command logs |
| `CommandLine.CommandLineSystem.ExecuteOnConsole` | Xenophyte-SeedNode-Proxy/CommandLine/CommandLineSystem.cs:50-106 | a command other than `exit` fails only as a `stats` with a missing listener, changes the host list only as `addhost` does, leaves every listener and session unchanged, and logs what the command logs over the counters before it |
| `CommandLine.CommandLineSystem.EditOrHelp` | Xenophyte-SeedNode-Proxy/CommandLine/CommandLineSystem.cs:50-73 | `help`, `addhost` or an unknown command: the host list changes only by `addhost`, the log gets that command's lines, and the console stays consistent |
| `CommandLine.CommandLineSystem.Run` | Xenophyte-SeedNode-Proxy/CommandLine/CommandLineSystem.cs:39-124 | the loop handles exactly `StopPoint` commands. It is closed exactly when the last is `exit` and failed exactly when the last is a failing `stats`. The host list reflects the handled commands. A closed console ends with the two closing lines |
| `CommandLine.CommandLineSystem.RunStep` | Xenophyte-SeedNode-Proxy/CommandLine/CommandLineSystem.cs:46-118 | one pass of the loop keeps its progress invariant |
| `CommandLine.CommandLineSystem.ReportShutDown` | Xenophyte-SeedNode-Proxy/CommandLine/CommandLineSystem.cs:121-122 | the two closing lines |
| `CommandLine.CommandLineSystem.ExitCommand` | Xenophyte-SeedNode-Proxy/CommandLine/CommandLineSystem.cs:107-117 | every listener is stopped as `StopProxyServer` promises, the console is closed, and the log is `ExitLog` |
| `CommandLine.CommandLineSystem.ReportClosed` | Xenophyte-SeedNode-Proxy/CommandLine/CommandLineSystem.cs:110-114 | on a true answer the "closed" line is logged and the flag is set, with the listeners left as stopped |

## Left out

- Socket I/O is not modelled: connect, read, write, flush, accept, listener start and stop, and the connectivity probe. Each is an outcome the caller supplies.
- `GetRandomBetween` is not modelled; the draws are an input.
- Threads, tasks, `Task.Delay`, linked cancellation tokens and the concurrent dictionary are not modelled. Everything runs sequentially, and a cancellation is a boolean flag that does not propagate.
- The race branch at Xenophyte-SeedNode-Proxy/TCP/Server/ProxyServerListener.cs:123-124 cannot happen sequentially. The failed `TryAdd` would close the session and still go on.
- The `i < Count` re-checks at AutomationSystem.cs:30, 43 and ProxyServerListener.cs:197, 238 always hold sequentially.
- UTF-8 on non-ASCII bytes is not modelled. The codec is one character per byte, which agrees with UTF-8 on ASCII only, so the cleaning lemmas are restricted to ASCII input.
- The log writer (LogSystem.cs) is not modelled: per-category files, the semaphore, the flush tasks and the timestamps. The log is the sequence of (message, category) entries.
- ProxyFunction.cs (JSON settings, file I/O, prompts) and Program.cs (start-up wiring) are not part of this model.
- The text of the help, stats and log lines and the console colours are not modelled; messages are values.
- The console start lines (CommandLineSystem.cs:43-44) and the final key press (CommandLineSystem.cs:123) are console I/O only.
- The command names are abstracted into the `Command` datatype. `IPAddress.TryParse` is foreign; its answer is the input `parsesAsIp`.
- Exceptions swallowed inside the sweep (ProxyServerListener.cs:207-210) cannot arise in the model, because the close it guards does not throw.
- Server.ProxyServerListener.AcceptClient, Server.ProxyServerListener.AddBucket and Server.AppendToNewBucket place a new key last in `keyOrder`. The registry is a `ConcurrentDictionary` whose `Keys` (ProxyServerListener.cs:193, 230) has no specified order, so `keyOrder` is insertion order by assumption. The order of the sweep's log lines and of the session enumeration is therefore a modelling choice; the counts and the set of sessions swept do not depend on it.
- Server.ProxyServerListener.AcceptLoop states its log only as growing, and its sessions only as growing by new ones. The lines and the session of each arrival are stated by `AcceptArrival`.
- Automation.AutomationSystem.AcceptThenStop states only that the accept's lines come before the rest of the log. The stop lines themselves are stated by `StopProxyServer`, over the session states as the accept left them.
- The accept loop awaits only the outer task of the accept step. The model runs the handshake to completion before the next accept.
- Client.ProxyClient.DoProxyingPacket and Client.ProxyClient.CheckConnectivity stop when the supplied outcomes run out. The source's pump would keep reading while the status is true; after a zero read the end of stream persists, so it spins on reads that return 0 until the monitor closes the session. The source's monitor would keep polling.
- Client.ProxyClient.OpenSeedNodeProxyLink requires that a selectable draw exists when the host list is non-empty. Without one the source draws forever.
- CommandLine.CommandLineSystem.Run stops when the input runs out, where the source would keep reading. Its log is stated only as growing, plus the two closing lines when closed. The log of each command is stated by `Execute`.
- CommandLine.CommandLineSystem.ShowStats reads the counters before it writes any line. The getters only read, so the log is the same. The index failure on a missing listener is modelled as ending the console loop at that section's header line, with no closing lines. In the source the exception is unhandled on the console's own thread (CommandLineSystem.cs:41-125 has no handler), so it ends the whole process: listeners, accept loops, pumps and monitors all stop.
- CommandLine.CommandLineSystem.ShowStats and CommandLine.CommandLineSystem.Run do not model that process termination. After a failing `stats`, `Run` returns with the listeners and sessions as they were; the program never continues from that state.
- The failure line of `exit` (CommandLineSystem.cs:115) is not modelled. `StopProxyServer` always answers true, so that branch is dead.
- The stats network names are not asserted. The three default ports do not line up with the four indices `stats` reads.
- The connector's port constants and seed-node key list are parameters: distinct ports (`ConnectorPorts`) and a key sequence.

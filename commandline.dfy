/**
 * The operator console: a loop that reads one command per line until the
 * proxy is closed. `help` lists the commands, `addhost` reads a host and
 * inserts it into the seed-node host list, `stats` prints the session counts
 * of the four networks and `exit` stops every listener.
 */
module CommandLine {
  import opened Types
  import opened Log
  import opened Setting
  import opened Client
  import opened Server
  import opened Automation

  /**
   * One console line, already matched against the command names. For
   * `addhost` the host is the next line read and `parsesAsIp` is the answer
   * of the IP address parser on it (a foreign call, hence an input).
   * Any other line, including end of input, matches no case.
   */
  datatype Command =
    | Help
    | AddHost(host: string, parsesAsIp: bool)
    | Stats
    | Exit
    | Other(line: string)

  // ---------------------------------------------------------------------
  // help
  // ---------------------------------------------------------------------

  /** The help text is a title line and one line per command. */
  const HELP_LINES: nat := 5

  function HelpLog(): (r: seq<LogEntry>)
    ensures |r| == HELP_LINES
    ensures forall i :: 0 <= i < |r| ==> r[i] == LogEntry(HelpLine(i), GENERAL)
  {
    [ LogEntry(HelpLine(0), GENERAL), LogEntry(HelpLine(1), GENERAL), LogEntry(HelpLine(2), GENERAL),
      LogEntry(HelpLine(3), GENERAL), LogEntry(HelpLine(4), GENERAL) ]
  }

  // ---------------------------------------------------------------------
  // addhost
  // ---------------------------------------------------------------------

  datatype AddHostOutcome = Added | RejectedInvalid | RejectedDuplicate | RejectedSelf

  /**
   * The checks of `addhost`, in the order they are made: the IP must parse,
   * must not be listed yet and must not be the server's own IP.
   */
  function DecideAddHost(hosts: seq<string>, serverIp: string, host: string, parsesAsIp: bool): (o: AddHostOutcome)
    ensures o == RejectedInvalid <==> !parsesAsIp
    ensures o == RejectedDuplicate <==> parsesAsIp && host in hosts
    ensures o == RejectedSelf <==> parsesAsIp && host !in hosts && host == serverIp
    ensures o == Added <==> parsesAsIp && host !in hosts && host != serverIp
  {
    if !parsesAsIp then RejectedInvalid
    else if host in hosts then RejectedDuplicate
    else if serverIp == host then RejectedSelf
    else Added
  }

  /** The host list after `addhost`: the host is appended once, or nothing changes. */
  function HostsAfterAdd(hosts: seq<string>, serverIp: string, host: string, parsesAsIp: bool): (r: seq<string>)
    ensures DecideAddHost(hosts, serverIp, host, parsesAsIp) == Added ==> r == hosts + [host]
    ensures DecideAddHost(hosts, serverIp, host, parsesAsIp) != Added ==> r == hosts
  {
    if DecideAddHost(hosts, serverIp, host, parsesAsIp) == Added then hosts + [host] else hosts
  }

  /** What `addhost` logs: one rejection line, or nothing when the host is added. */
  function AddHostLog(o: AddHostOutcome, host: string): (r: seq<LogEntry>)
    ensures o == Added <==> r == []
    ensures o != Added ==> |r| == 1 && r[0].category == GENERAL
  {
    match o
    case Added => []
    case RejectedInvalid => [LogEntry(HostRejectedInvalid(host), GENERAL)]
    case RejectedDuplicate => [LogEntry(HostRejectedDuplicate(host), GENERAL)]
    case RejectedSelf => [LogEntry(HostRejectedSelf(host), GENERAL)]
  }

  /** The host list sessions draw from lists each host once and never the server itself. */
  ghost predicate HostListOk(hosts: seq<string>, serverIp: string)
  {
    NoDuplicates(hosts) && serverIp !in hosts
  }

  /** The settings object starts with a consistent host list (dictionary keys are distinct). */
  lemma {:induction false} InitialHostListOk(knownSeedNodes: seq<string>, serverIp: string)
    requires NoDuplicates(knownSeedNodes)
    ensures HostListOk(WithoutSelf(knownSeedNodes, serverIp), serverIp)
  {
    WithoutSelfNoDuplicates(knownSeedNodes, serverIp);
  }

  /** `addhost` keeps the host list consistent. */
  lemma {:induction false} AddHostKeepsHostListOk(hosts: seq<string>, serverIp: string, host: string, parsesAsIp: bool)
    requires HostListOk(hosts, serverIp)
    ensures HostListOk(HostsAfterAdd(hosts, serverIp, host, parsesAsIp), serverIp)
  {
    var r := HostsAfterAdd(hosts, serverIp, host, parsesAsIp);
    if DecideAddHost(hosts, serverIp, host, parsesAsIp) == Added {
      forall i, j | 0 <= i < j < |r| ensures r[i] != r[j] {
        if j == |r| - 1 {
          assert r[i] == hosts[i];
        } else {
          assert r[i] == hosts[i] && r[j] == hosts[j];
        }
      }
    }
  }

  /** The host list after the command, whatever the command is. */
  function HostsAfterCommand(hosts: seq<string>, serverIp: string, cmd: Command): seq<string>
  {
    if cmd.AddHost? then HostsAfterAdd(hosts, serverIp, cmd.host, cmd.parsesAsIp) else hosts
  }

  /** The host list after a run of commands. */
  function HostsAfter(hosts: seq<string>, serverIp: string, cmds: seq<Command>): (r: seq<string>)
    decreases |cmds|
  {
    if cmds == [] then hosts
    else HostsAfterCommand(HostsAfter(hosts, serverIp, cmds[..|cmds| - 1]), serverIp, cmds[|cmds| - 1])
  }

  /** Over any run of commands the host list only grows, and stays consistent. */
  lemma {:induction false} HostsAfterKeepsHostListOk(hosts: seq<string>, serverIp: string, cmds: seq<Command>)
    requires HostListOk(hosts, serverIp)
    ensures HostListOk(HostsAfter(hosts, serverIp, cmds), serverIp)
    ensures hosts <= HostsAfter(hosts, serverIp, cmds)
    decreases |cmds|
  {
    if cmds != [] {
      var prev := HostsAfter(hosts, serverIp, cmds[..|cmds| - 1]);
      HostsAfterKeepsHostListOk(hosts, serverIp, cmds[..|cmds| - 1]);
      var last := cmds[|cmds| - 1];
      if last.AddHost? {
        AddHostKeepsHostListOk(prev, serverIp, last.host, last.parsesAsIp);
      }
    }
  }

  // ---------------------------------------------------------------------
  // stats
  // ---------------------------------------------------------------------

  /** The three counters `stats` prints for one network. */
  datatype Counts = Counts(all: nat, alive: nat, dead: nat)

  /** The counters of one listener's sessions. */
  ghost function CountsOf(entries: seq<ProxyClient>): Counts
    reads set c | c in entries
  {
    var flags := StatusesOf(entries);
    Counts(StatCount(flags, COUNT_ALL), StatCount(flags, COUNT_ALIVE), StatCount(flags, COUNT_DEAD))
  }

  /** The counters of every listener, in list order. */
  ghost function NetworkCounts(ls: seq<ProxyServerListener>): (r: seq<Counts>)
    reads (set l | l in ls), Sessions(ls)
    ensures |r| == |ls| && forall j :: 0 <= j < |ls| ==> r[j] == CountsOf(ls[j].entries)
  {
    seq(|ls|, j requires 0 <= j < |ls| reads (set l | l in ls), Sessions(ls) => CountsOf(ls[j].entries))
  }

  /** For every listener the printed total is the alive count plus the dead count. */
  lemma {:induction false} NetworkCountsAddUp(ls: seq<ProxyServerListener>)
    ensures forall j :: 0 <= j < |ls| ==>
              NetworkCounts(ls)[j].all == NetworkCounts(ls)[j].alive + NetworkCounts(ls)[j].dead
  {
    forall j | 0 <= j < |ls|
      ensures NetworkCounts(ls)[j].all == NetworkCounts(ls)[j].alive + NetworkCounts(ls)[j].dead
    {
      AliveAndDeadMakeAll(StatusesOf(ls[j].entries));
    }
  }

  /** `stats` prints four sections, for the networks 0 to 3. */
  const STATS_SECTIONS: nat := 4

  /** One section: a header, the ALL, ALIVE and DEAD counters, a footer. */
  function StatsSection(network: nat, c: Counts): (r: seq<LogEntry>)
    ensures |r| == 5 && forall i :: 0 <= i < 5 ==> r[i].category == GENERAL
    ensures r[0] == LogEntry(StatsHeader(network), GENERAL) && r[4] == LogEntry(StatsFooter(network), GENERAL)
  {
    [ LogEntry(StatsHeader(network), GENERAL),
      LogEntry(StatsTotal(network, c.all), GENERAL),
      LogEntry(StatsAlive(network, c.alive), GENERAL),
      LogEntry(StatsDead(network, c.dead), GENERAL),
      LogEntry(StatsFooter(network), GENERAL) ]
  }

  /**
   * What `stats` prints from section `k` on, given the counters of the
   * listeners that exist. The first missing listener stops the command
   * right after its section header (the index is out of range).
   */
  function StatsFrom(counts: seq<Counts>, k: nat): seq<LogEntry>
    decreases STATS_SECTIONS - k
  {
    if k >= STATS_SECTIONS then []
    else if k >= |counts| then [LogEntry(StatsHeader(k), GENERAL)]
    else StatsSection(k, counts[k]) + StatsFrom(counts, k + 1)
  }

  function StatsLog(counts: seq<Counts>): seq<LogEntry>
  {
    StatsFrom(counts, 0)
  }

  /** The first `n` whole sections, one after the other. */
  function Sections(counts: seq<Counts>, n: nat): (r: seq<LogEntry>)
    requires n <= |counts|
    ensures |r| == 5 * n
  {
    if n == 0 then [] else Sections(counts, n - 1) + StatsSection(n - 1, counts[n - 1])
  }

  /** How many whole sections `stats` prints. */
  function WholeSections(counts: seq<Counts>): nat
  {
    if |counts| < STATS_SECTIONS then |counts| else STATS_SECTIONS
  }

  /**
   * `stats` prints a whole section for each network whose listener exists,
   * in network order; with fewer than four listeners the header of the first
   * missing network is the last line printed.
   */
  lemma {:induction false} StatsLogShape(counts: seq<Counts>)
    ensures StatsLog(counts) == Sections(counts, WholeSections(counts))
              + (if |counts| < STATS_SECTIONS then [LogEntry(StatsHeader(|counts|), GENERAL)] else [])
  {
    StatsFromShape(counts, 0);
    assert Sections(counts, 0) + StatsFrom(counts, 0) == StatsFrom(counts, 0);
  }

  lemma {:induction false} StatsFromShape(counts: seq<Counts>, k: nat)
    requires k <= WholeSections(counts)
    ensures Sections(counts, k) + StatsFrom(counts, k) == Sections(counts, WholeSections(counts))
              + (if |counts| < STATS_SECTIONS then [LogEntry(StatsHeader(|counts|), GENERAL)] else [])
    decreases STATS_SECTIONS - k
  {
    if k < WholeSections(counts) {
      StatsFromShape(counts, k + 1);
      AppendAssoc(Sections(counts, k), StatsSection(k, counts[k]), StatsFrom(counts, k + 1));
    }
  }

  /**
   * The progress of `stats` before section `k`, as values: what `log` adds
   * to `log0`, followed by what the sections from `k` on print, is the whole
   * `stats` output; once a section has crashed the output is complete.
   */
  ghost predicate StatsLogged(k: nat, crashed: bool, counts: seq<Counts>, log0: seq<LogEntry>, log: seq<LogEntry>)
  {
    && k <= STATS_SECTIONS
    && (crashed ==> 0 < k && k - 1 == |counts| && log == log0 + StatsLog(counts))
    && (!crashed ==> k <= |counts| && log + StatsFrom(counts, k) == log0 + StatsLog(counts))
  }

  /** Printing section `k` (or only its header, when its listener is missing) advances the progress. */
  lemma {:induction false} StatsLoggedStep(k: nat, crashed: bool, counts: seq<Counts>, log0: seq<LogEntry>,
                                           log: seq<LogEntry>, log': seq<LogEntry>)
    requires k < STATS_SECTIONS && StatsLogged(k, false, counts, log0, log)
    requires crashed <==> k >= |counts|
    requires crashed ==> log' == log + [LogEntry(StatsHeader(k), GENERAL)]
    requires !crashed ==> log' == log + StatsSection(k, counts[k])
    ensures StatsLogged(k + 1, crashed, counts, log0, log')
  {
    if !crashed {
      AppendAssoc(log, StatsSection(k, counts[k]), StatsFrom(counts, k + 1));
    }
  }

  /** Once every section is printed, or one has crashed, the log holds the whole `stats` output. */
  lemma {:induction false} StatsLoggedDone(k: nat, crashed: bool, counts: seq<Counts>, log0: seq<LogEntry>,
                                           log: seq<LogEntry>)
    requires StatsLogged(k, crashed, counts, log0, log) && (crashed || k == STATS_SECTIONS)
    ensures crashed <==> |counts| < STATS_SECTIONS
    ensures log == log0 + StatsLog(counts)
  {
    if !crashed {
      assert StatsFrom(counts, k) == [];
    }
  }

  /** The counters of the networks `stats` reaches, in network order. */
  function Reached(counts: seq<Counts>): seq<Counts>
  {
    if |counts| <= 0 then []
    else if |counts| <= 1 then [counts[0]]
    else if |counts| <= 2 then [counts[0], counts[1]]
    else if |counts| <= 3 then [counts[0], counts[1], counts[2]]
    else [counts[0], counts[1], counts[2], counts[3]]
  }

  /** They are the first `WholeSections` counters. */
  lemma {:induction false} ReachedAgrees(counts: seq<Counts>)
    ensures |Reached(counts)| == WholeSections(counts)
    ensures forall j :: 0 <= j < |Reached(counts)| ==> Reached(counts)[j] == counts[j]
  {
  }

  /** `stats` prints the same from counters that agree on the networks it reaches. */
  lemma {:induction false} StatsLogAgree(read: seq<Counts>, counts: seq<Counts>)
    requires |read| == WholeSections(counts) && forall j :: 0 <= j < |read| ==> read[j] == counts[j]
    ensures StatsLog(read) == StatsLog(counts)
  {
    StatsFromAgree(read, counts, 0);
  }

  lemma {:induction false} StatsFromAgree(read: seq<Counts>, counts: seq<Counts>, k: nat)
    requires |read| == WholeSections(counts) && forall j :: 0 <= j < |read| ==> read[j] == counts[j]
    ensures StatsFrom(read, k) == StatsFrom(counts, k)
    decreases STATS_SECTIONS - k
  {
    if k < STATS_SECTIONS {
      StatsFromAgree(read, counts, k + 1);
    }
  }

  // ---------------------------------------------------------------------
  // exit and the command loop
  // ---------------------------------------------------------------------

  /** What `exit` logs around stopping the listeners (the stop always succeeds). */
  function ExitLog(created: seq<bool>, snaps: seq<seq<Snapshot>>): (r: seq<LogEntry>)
    requires |created| == |snaps|
    ensures |r| >= 2 + |created|
    ensures r[0] == LogEntry(ServerClosing, GENERAL) && r[|r| - 1] == LogEntry(ServerClosed, GENERAL)
  {
    [LogEntry(ServerClosing, GENERAL)] + StopLogs(created, snaps) + [LogEntry(ServerClosed, GENERAL)]
  }

  /** The two lines logged once the loop is left. */
  function ClosingLines(): seq<LogEntry>
  {
    [LogEntry(ProxyShutDown, GENERAL), LogEntry(PressKeyToExit, GENERAL)]
  }

  /** What one command logs, given the state it starts from. */
  function CommandLog(cmd: Command, hosts: seq<string>, serverIp: string, created: seq<bool>,
                      snaps: seq<seq<Snapshot>>, counts: seq<Counts>): seq<LogEntry>
    requires |created| == |snaps|
  {
    if cmd.Exit? then ExitLog(created, snaps) else ConsoleLog(cmd, hosts, serverIp, counts)
  }

  /** The lines of a command other than `exit`, which touches no listener. */
  function ConsoleLog(cmd: Command, hosts: seq<string>, serverIp: string, counts: seq<Counts>): seq<LogEntry>
    requires !cmd.Exit?
  {
    match cmd
    case Help => HelpLog()
    case AddHost(host, parsesAsIp) => AddHostLog(DecideAddHost(hosts, serverIp, host, parsesAsIp), host)
    case Stats => StatsLog(counts)
    case Other(_) => []
  }

  /** A command after which the loop is left: `exit`, or `stats` with a listener missing. */
  predicate Ends(cmd: Command, statsOk: bool)
  {
    cmd.Exit? || (cmd.Stats? && !statsOk)
  }

  /** How many commands, from index `i` on, the loop has handled when it is left. */
  function StopFrom(cmds: seq<Command>, statsOk: bool, i: nat): (n: nat)
    decreases |cmds| - i
  {
    if i >= |cmds| then |cmds|
    else if Ends(cmds[i], statsOk) then i + 1
    else StopFrom(cmds, statsOk, i + 1)
  }

  /** How many commands the loop handles. */
  function StopPoint(cmds: seq<Command>, statsOk: bool): nat
  {
    StopFrom(cmds, statsOk, 0)
  }

  /**
   * The loop handles every command up to and including the first that ends
   * it, and nothing after: no command before the stop point ends the loop,
   * and if it stops early the last handled command is the one that ended it.
   */
  lemma {:induction false} StopPointIsFirstEnd(cmds: seq<Command>, statsOk: bool)
    ensures StopPoint(cmds, statsOk) <= |cmds|
    ensures |cmds| > 0 ==> StopPoint(cmds, statsOk) > 0
    ensures forall k :: 0 <= k < StopPoint(cmds, statsOk) - 1 ==> !Ends(cmds[k], statsOk)
    ensures StopPoint(cmds, statsOk) < |cmds| ==> Ends(cmds[StopPoint(cmds, statsOk) - 1], statsOk)
    ensures (exists k :: 0 <= k < |cmds| && Ends(cmds[k], statsOk)) <==>
              (StopPoint(cmds, statsOk) > 0 && Ends(cmds[StopPoint(cmds, statsOk) - 1], statsOk))
  {
    StopFromIsFirstEnd(cmds, statsOk, 0);
  }

  lemma {:induction false} StopFromIsFirstEnd(cmds: seq<Command>, statsOk: bool, i: nat)
    requires i <= |cmds|
    ensures i <= StopFrom(cmds, statsOk, i) <= |cmds|
    ensures i < |cmds| ==> StopFrom(cmds, statsOk, i) > i
    ensures forall k :: i <= k < StopFrom(cmds, statsOk, i) - 1 ==> !Ends(cmds[k], statsOk)
    ensures StopFrom(cmds, statsOk, i) < |cmds| ==> Ends(cmds[StopFrom(cmds, statsOk, i) - 1], statsOk)
    ensures (exists k :: i <= k < |cmds| && Ends(cmds[k], statsOk)) <==>
              (StopFrom(cmds, statsOk, i) > i && Ends(cmds[StopFrom(cmds, statsOk, i) - 1], statsOk))
    decreases |cmds| - i
  {
    if i < |cmds| && !Ends(cmds[i], statsOk) {
      StopFromIsFirstEnd(cmds, statsOk, i + 1);
      if exists k :: i <= k < |cmds| && Ends(cmds[k], statsOk) {
        var k :| i <= k < |cmds| && Ends(cmds[k], statsOk);
        assert k != i;
      }
    }
  }

  /**
   * The state of the console loop after `handled` commands, as values: the
   * flags say how the last command ended, and the loop stops where
   * `StopPoint` says.
   */
  ghost predicate LoopState(handled: nat, closed: bool, crashed: bool, cmds: seq<Command>, statsOk: bool)
  {
    && handled <= |cmds|
    && (closed <==> (handled > 0 && cmds[handled - 1].Exit?))
    && (crashed <==> (handled > 0 && cmds[handled - 1].Stats? && !statsOk))
    && ((closed || crashed) ==> handled == StopPoint(cmds, statsOk))
    && (!(closed || crashed) ==> StopFrom(cmds, statsOk, handled) == StopPoint(cmds, statsOk))
  }

  /** Handling one more command: `exit` closes, a `stats` without listeners crashes. */
  lemma {:induction false} LoopStep(handled: nat, closed: bool, crashed: bool, cmds: seq<Command>, statsOk: bool)
    requires handled < |cmds| && LoopState(handled, false, false, cmds, statsOk)
    requires closed == cmds[handled].Exit? && crashed == (cmds[handled].Stats? && !statsOk)
    ensures LoopState(handled + 1, closed, crashed, cmds, statsOk)
  {
  }

  /** When the loop is left, it has handled exactly `StopPoint` commands. */
  lemma {:induction false} LoopDone(handled: nat, closed: bool, crashed: bool, cmds: seq<Command>, statsOk: bool)
    requires LoopState(handled, closed, crashed, cmds, statsOk) && (closed || crashed || handled == |cmds|)
    ensures handled == StopPoint(cmds, statsOk)
  {
  }

  lemma PrefixGrows<T>(a: seq<T>, b: seq<T>, c: seq<T>)
    requires a <= b
    ensures a <= b + c
  {
  }

  // ---------------------------------------------------------------------
  // The console
  // ---------------------------------------------------------------------

  class CommandLineSystem {
    const automation: AutomationSystem     // _automationSystem
    const setting: ProxySetting            // _proxySetting
    const logger: Logger                   // _logSystem
    var proxyServerClosed: bool            // _proxyServerClosed

    /**
     * The automation layer is consistent and writes to the console's log, and
     * every listener draws from the console's settings, so a host added by
     * `addhost` is one later handshakes can draw.
     */
    ghost predicate Valid()
      reads (set l | l in automation.listeners), Sessions(automation.listeners)
    {
      && automation.Valid() && automation.logger == logger
      && (forall j :: 0 <= j < |automation.listeners| ==> automation.listeners[j].setting == setting)
    }

    constructor (automation: AutomationSystem, setting: ProxySetting, logger: Logger)
      ensures this.automation == automation && this.setting == setting && this.logger == logger
      ensures !proxyServerClosed
      ensures automation.Valid() && automation.logger == logger
              && (forall j :: 0 <= j < |automation.listeners| ==> automation.listeners[j].setting == setting)
              ==> Valid()
    {
      this.automation := automation;
      this.setting := setting;
      this.logger := logger;
      this.proxyServerClosed := false;
    }

    /** `help`: the five help lines. */
    method ShowHelp()
      modifies logger
      ensures logger.entries == old(logger.entries) + HelpLog()
    {
      logger.WriteLine(HelpLine(0), GENERAL);
      logger.WriteLine(HelpLine(1), GENERAL);
      logger.WriteLine(HelpLine(2), GENERAL);
      logger.WriteLine(HelpLine(3), GENERAL);
      logger.WriteLine(HelpLine(4), GENERAL);
    }

    /** `addhost`: the checks in order, then one append to the shared host list. */
    method AddHostCommand(host: string, parsesAsIp: bool)
      modifies setting`seedNodeHostList, logger
      ensures setting.seedNodeHostList == HostsAfterAdd(old(setting.seedNodeHostList), setting.serverIp, host, parsesAsIp)
      ensures logger.entries == old(logger.entries)
                + AddHostLog(DecideAddHost(old(setting.seedNodeHostList), setting.serverIp, host, parsesAsIp), host)
    {
      if !parsesAsIp {
        logger.WriteLine(HostRejectedInvalid(host), GENERAL);
      } else if host in setting.seedNodeHostList {
        logger.WriteLine(HostRejectedDuplicate(host), GENERAL);
      } else if setting.serverIp == host {
        logger.WriteLine(HostRejectedSelf(host), GENERAL);
      } else {
        setting.seedNodeHostList := setting.seedNodeHostList + [host];
      }
    }

    /**
     * One counter of network `k`, through that network's getter. Reading
     * leaves the listeners, their sessions and so every counter as they were.
     */
    method NetworkStat(k: nat, stat: ProxyServerEnumStats, ghost all: seq<Counts>) returns (total: nat)
      requires Valid() && k < STATS_SECTIONS && k < |automation.listeners|
      requires all == NetworkCounts(automation.listeners)
      ensures Valid() && NetworkCounts(automation.listeners) == all
      ensures total == StatCount(StatusesOf(automation.listeners[k].entries), stat)
    {
      if k == ONLINE_NETWORK {
        total := automation.GetTotalOnlineNetworkConnection(stat);
      } else if k == REMOTE_HTTP_NETWORK {
        total := automation.GetTotalRemoteHttpNetworkConnection(stat);
      } else if k == REMOTE_NETWORK {
        total := automation.GetTotalRemoteNetworkConnection(stat);
      } else {
        total := automation.GetTotalTokenNetworkConnection(stat);
      }
      ListenersUntouched();
    }

    /** The three counters of network `k`. */
    method ReadNetwork(k: nat, ghost all: seq<Counts>) returns (c: Counts)
      requires Valid() && k < STATS_SECTIONS && k < |automation.listeners|
      requires all == NetworkCounts(automation.listeners)
      ensures Valid() && NetworkCounts(automation.listeners) == all
      ensures c == all[k]
    {
      var total := NetworkStat(k, COUNT_ALL, all);
      var alive := NetworkStat(k, COUNT_ALIVE, all);
      var dead := NetworkStat(k, COUNT_DEAD, all);
      c := Counts(total, alive, dead);
    }

    /**
     * The counters of every network `stats` reaches, in network order: the
     * getters of a network are called only when its listener exists.
     */
    method ReadCounts(ghost all: seq<Counts>) returns (counts: seq<Counts>)
      requires Valid() && all == NetworkCounts(automation.listeners)
      ensures Valid()
      ensures counts == Reached(all)
    {
      var n := |automation.listeners|;
      assert |all| == n;
      if n <= ONLINE_NETWORK {
        return [];
      }
      var online := ReadNetwork(ONLINE_NETWORK, all);
      if n <= REMOTE_HTTP_NETWORK {
        return [online];
      }
      var remoteHttp := ReadNetwork(REMOTE_HTTP_NETWORK, all);
      if n <= REMOTE_NETWORK {
        return [online, remoteHttp];
      }
      var remote := ReadNetwork(REMOTE_NETWORK, all);
      if n <= TOKEN_NETWORK {
        return [online, remoteHttp, remote];
      }
      var token := ReadNetwork(TOKEN_NETWORK, all);
      return [online, remoteHttp, remote, token];
    }

    /** The five lines of one `stats` section. */
    method WriteSection(k: nat, c: Counts)
      modifies logger
      ensures logger.entries == old(logger.entries) + StatsSection(k, c)
    {
      logger.WriteLine(StatsHeader(k), GENERAL);
      logger.WriteLine(StatsTotal(k, c.all), GENERAL);
      logger.WriteLine(StatsAlive(k, c.alive), GENERAL);
      logger.WriteLine(StatsDead(k, c.dead), GENERAL);
      logger.WriteLine(StatsFooter(k), GENERAL);
    }

    /**
     * Section `k` of `stats`: the whole section, or only the header when the
     * listener of network `k` is missing, which ends the command.
     */
    method StatsStep(k: nat, counts: seq<Counts>, ghost log0: seq<LogEntry>) returns (crashed: bool)
      requires k < STATS_SECTIONS && StatsLogged(k, false, counts, log0, logger.entries)
      modifies logger
      ensures StatsLogged(k + 1, crashed, counts, log0, logger.entries)
    {
      ghost var log := logger.entries;
      if k >= |counts| {
        logger.WriteLine(StatsHeader(k), GENERAL);
        crashed := true;
      } else {
        WriteSection(k, counts[k]);
        crashed := false;
      }
      StatsLoggedStep(k, crashed, counts, log0, log, logger.entries);
    }

    /** The lines of `stats` for the counters read, section after section. */
    method WriteStats(counts: seq<Counts>) returns (crashed: bool)
      modifies logger
      ensures crashed <==> |counts| < STATS_SECTIONS
      ensures logger.entries == old(logger.entries) + StatsLog(counts)
    {
      ghost var log0 := logger.entries;
      crashed := StatsStep(ONLINE_NETWORK, counts, log0);
      if crashed {
        StatsLoggedDone(1, crashed, counts, log0, logger.entries);
        return;
      }
      crashed := StatsStep(REMOTE_HTTP_NETWORK, counts, log0);
      if crashed {
        StatsLoggedDone(2, crashed, counts, log0, logger.entries);
        return;
      }
      crashed := StatsStep(REMOTE_NETWORK, counts, log0);
      if crashed {
        StatsLoggedDone(3, crashed, counts, log0, logger.entries);
        return;
      }
      crashed := StatsStep(TOKEN_NETWORK, counts, log0);
      StatsLoggedDone(4, crashed, counts, log0, logger.entries);
    }

    /** A step that changes neither a listener nor a session keeps every view of them. */
    twostate lemma ListenersUntouched()
      requires old(Valid())
      requires unchanged(set l | l in automation.listeners) && unchanged(Sessions(automation.listeners))
      ensures Valid()
      ensures EntriesOf(automation.listeners) == old(EntriesOf(automation.listeners))
      ensures CreatedFlags(automation.listeners) == old(CreatedFlags(automation.listeners))
      ensures SnapsOf(automation.listeners) == old(SnapsOf(automation.listeners))
      ensures NetworkCounts(automation.listeners) == old(NetworkCounts(automation.listeners))
    {
    }

    /**
     * `stats`: four sections in network order; a missing listener ends the
     * command after the header of its section. The getters only read, so the
     * counters are all read before the first line is written.
     */
    method ShowStats() returns (crashed: bool)
      requires Valid()
      modifies logger
      ensures Valid()
      ensures crashed <==> |automation.listeners| < STATS_SECTIONS
      ensures logger.entries == old(logger.entries) + StatsLog(old(NetworkCounts(automation.listeners)))
    {
      ghost var all := NetworkCounts(automation.listeners);
      var counts := ReadCounts(all);
      crashed := WriteReached(counts, all);
    }

    /** The lines of `stats` for the counters it reaches, which are those of `all`. */
    method WriteReached(counts: seq<Counts>, ghost all: seq<Counts>) returns (crashed: bool)
      requires Valid() && counts == Reached(all)
      modifies logger
      ensures Valid()
      ensures crashed <==> |all| < STATS_SECTIONS
      ensures logger.entries == old(logger.entries) + StatsLog(all)
    {
      ReachedAgrees(all);
      StatsLogAgree(counts, all);
      crashed := WriteStats(counts);
      ListenersUntouched();
    }

    /** `stats` has a listener for each of its four sections. */
    predicate StatsOk()
    {
      |automation.listeners| >= STATS_SECTIONS
    }

    /**
     * One pass of the console loop on the command `cmd`. Only `addhost`
     * touches the host list, only `exit` touches the listeners and sets the
     * closed flag, and `stats` crashes exactly when a listener is missing.
     */
    method Execute(cmd: Command) returns (crashed: bool)
      requires Valid()
      modifies this`proxyServerClosed, setting`seedNodeHostList, (set l | l in automation.listeners),
               Sessions(automation.listeners), logger
      ensures Valid()
      ensures proxyServerClosed == (old(proxyServerClosed) || cmd.Exit?)
      ensures EntriesOf(automation.listeners) == old(EntriesOf(automation.listeners))
      ensures !cmd.Exit? ==> unchanged(set l | l in automation.listeners) && unchanged(Sessions(automation.listeners))
      ensures crashed <==> cmd.Stats? && !StatsOk()
      ensures setting.seedNodeHostList == HostsAfterCommand(old(setting.seedNodeHostList), setting.serverIp, cmd)
      ensures cmd.Exit? ==> automation.AllStopped(old(EntriesOf(automation.listeners)),
                                                  old(CreatedFlags(automation.listeners)),
                                                  old(SnapsOf(automation.listeners)))
      ensures logger.entries == old(logger.entries)
                + CommandLog(cmd, old(setting.seedNodeHostList), setting.serverIp, old(CreatedFlags(automation.listeners)),
                             old(SnapsOf(automation.listeners)), old(NetworkCounts(automation.listeners)))
    {
      if cmd.Exit? {
        crashed := false;
        ExitCommand();
      } else {
        crashed := ExecuteOnConsole(cmd);
      }
    }

    /** A command other than `exit`: it touches at most the host list and the log. */
    method ExecuteOnConsole(cmd: Command) returns (crashed: bool)
      requires Valid() && !cmd.Exit?
      modifies setting`seedNodeHostList, logger
      ensures Valid()
      ensures EntriesOf(automation.listeners) == old(EntriesOf(automation.listeners))
      ensures unchanged(set l | l in automation.listeners) && unchanged(Sessions(automation.listeners))
      ensures crashed <==> cmd.Stats? && !StatsOk()
      ensures setting.seedNodeHostList == HostsAfterCommand(old(setting.seedNodeHostList), setting.serverIp, cmd)
      ensures logger.entries == old(logger.entries)
                + ConsoleLog(cmd, old(setting.seedNodeHostList), setting.serverIp, old(NetworkCounts(automation.listeners)))
    {
      if cmd.Stats? {
        crashed := ShowStats();
      } else {
        crashed := false;
        EditOrHelp(cmd);
      }
    }

    /** `help`, `addhost` or an unknown line: no listener is read. */
    method EditOrHelp(cmd: Command)
      requires Valid() && !cmd.Exit? && !cmd.Stats?
      modifies setting`seedNodeHostList, logger
      ensures Valid()
      ensures setting.seedNodeHostList == HostsAfterCommand(old(setting.seedNodeHostList), setting.serverIp, cmd)
      ensures logger.entries == old(logger.entries) + ConsoleLog(cmd, old(setting.seedNodeHostList), setting.serverIp, [])
    {
      match cmd
      case Help =>
        ShowHelp();
        ListenersUntouched();
      case AddHost(host, parsesAsIp) =>
        AddHostCommand(host, parsesAsIp);
        ListenersUntouched();
      case Other(_) =>
    }

    /**
     * The console loop (StartCommandLineSystem) over the lines read, in
     * order. It ends at `exit`, at a `stats` that crashes, or when the input
     * runs out; only a closed console logs the two closing lines.
     */
    method Run(commands: seq<Command>) returns (handled: nat, crashed: bool)
      requires Valid() && !proxyServerClosed
      modifies this`proxyServerClosed, setting`seedNodeHostList, (set l | l in automation.listeners),
               Sessions(automation.listeners), logger
      ensures Valid()
      ensures handled <= |commands| && handled == StopPoint(commands, StatsOk())
      ensures proxyServerClosed <==> (handled > 0 && commands[handled - 1].Exit?)
      ensures crashed <==> (handled > 0 && commands[handled - 1].Stats? && !StatsOk())
      ensures setting.seedNodeHostList == HostsAfter(old(setting.seedNodeHostList), setting.serverIp, commands[..handled])
      ensures old(logger.entries) <= logger.entries
      ensures proxyServerClosed ==> |logger.entries| >= 2 && logger.entries[|logger.entries| - 2..] == ClosingLines()
    {
      ghost var hosts0, entries0, log0 := setting.seedNodeHostList, EntriesOf(automation.listeners), logger.entries;
      handled, crashed := 0, false;
      SessionsAreMembers(automation.listeners);
      while !proxyServerClosed && handled < |commands| && !crashed
        invariant RunProgress(handled, crashed, commands, hosts0, entries0, log0)
      {
        crashed := RunStep(handled, commands, hosts0, entries0, log0);
        handled := handled + 1;
      }
      LoopDone(handled, proxyServerClosed, crashed, commands, StatsOk());
      if proxyServerClosed {
        ghost var log := logger.entries;
        ReportShutDown();
        PrefixGrows(log0, log, ClosingLines());
      }
    }

    /**
     * Progress of the console loop after `handled` commands: the host list
     * reflects them, the log has only grown, the flags say how the last one
     * ended, and the loop will stop where `StopPoint` says.
     */
    ghost predicate RunProgress(handled: nat, crashed: bool, cmds: seq<Command>, hosts0: seq<string>,
                                entries0: seq<seq<ProxyClient>>, log0: seq<LogEntry>)
      reads this, setting, (set l | l in automation.listeners), Sessions(automation.listeners), logger
    {
      && Valid() && handled <= |cmds|
      && EntriesOf(automation.listeners) == entries0 && Sessions(automation.listeners) == Members(entries0)
      && setting.seedNodeHostList == HostsAfter(hosts0, setting.serverIp, cmds[..handled])
      && log0 <= logger.entries
      && LoopState(handled, proxyServerClosed, crashed, cmds, StatsOk())
    }

    /** One pass of the console loop, as a step of `RunProgress`. */
    method RunStep(handled: nat, cmds: seq<Command>, ghost hosts0: seq<string>, ghost entries0: seq<seq<ProxyClient>>,
                   ghost log0: seq<LogEntry>)
      returns (crashed: bool)
      requires handled < |cmds| && !proxyServerClosed && RunProgress(handled, false, cmds, hosts0, entries0, log0)
      modifies this`proxyServerClosed, setting`seedNodeHostList, (set l | l in automation.listeners),
               Sessions(automation.listeners), logger
      ensures RunProgress(handled + 1, crashed, cmds, hosts0, entries0, log0)
    {
      ghost var log := logger.entries;
      crashed := Execute(cmds[handled]);
      SessionsAreMembers(automation.listeners);
      assert cmds[..handled + 1][..handled] == cmds[..handled];
      LoopStep(handled, proxyServerClosed, crashed, cmds, StatsOk());
      PrefixGrows(log0, log, logger.entries[|log|..]);
    }

    /** The two lines logged after the loop. */
    method ReportShutDown()
      requires Valid()
      modifies logger
      ensures Valid()
      ensures logger.entries == old(logger.entries) + ClosingLines()
    {
      logger.WriteLine(ProxyShutDown, GENERAL);
      logger.WriteLine(PressKeyToExit, GENERAL);
    }

    /** `exit`: stop every listener; the stop succeeds, so the console is closed. */
    method ExitCommand()
      requires Valid()
      modifies this`proxyServerClosed, (set l | l in automation.listeners), Sessions(automation.listeners), logger
      ensures Valid() && proxyServerClosed
      ensures EntriesOf(automation.listeners) == old(EntriesOf(automation.listeners))
      ensures automation.AllStopped(old(EntriesOf(automation.listeners)), old(CreatedFlags(automation.listeners)),
                                    old(SnapsOf(automation.listeners)))
      ensures logger.entries == old(logger.entries)
                + ExitLog(old(CreatedFlags(automation.listeners)), old(SnapsOf(automation.listeners)))
    {
      ghost var entries0, created0 := EntriesOf(automation.listeners), CreatedFlags(automation.listeners);
      ghost var snaps0, log0 := SnapsOf(automation.listeners), logger.entries;
      logger.WriteLine(ServerClosing, GENERAL);
      ListenersUntouched();
      var ok := automation.StopProxyServer();
      ghost var stopLogs := StopLogs(created0, snaps0);
      AppendAssoc(log0, [LogEntry(ServerClosing, GENERAL)], stopLogs);
      if ok {
        ReportClosed(entries0, created0, snaps0);
      }
      assert EntriesOf(automation.listeners) == entries0;
      AppendAssoc(log0, [LogEntry(ServerClosing, GENERAL)] + stopLogs, [LogEntry(ServerClosed, GENERAL)]);
    }

    /** The successful end of `exit`: report it and close the console. */
    method ReportClosed(ghost entries0: seq<seq<ProxyClient>>, ghost created0: seq<bool>,
                        ghost snaps0: seq<seq<Snapshot>>)
      requires Valid() && automation.AllStopped(entries0, created0, snaps0)
      modifies this`proxyServerClosed, logger
      ensures Valid() && automation.AllStopped(entries0, created0, snaps0)
      ensures proxyServerClosed
      ensures logger.entries == old(logger.entries) + [LogEntry(ServerClosed, GENERAL)]
    {
      logger.WriteLine(ServerClosed, GENERAL);
      proxyServerClosed := true;
      automation.StoppedStay(entries0, created0, snaps0);
    }
  }
}

/**
 * The automation object (`AutomationSystem`): the list of listeners, one per
 * listen port, with the periodic clean-up, the shutdown of every listener and
 * the four per-network counters.
 */
module Automation {
  import opened Types
  import opened Log
  import opened Client
  import opened Server

  /** Positions of the networks in the listener list, in the order Program creates them. */
  const ONLINE_NETWORK: nat := 0
  const REMOTE_HTTP_NETWORK: nat := 1
  const REMOTE_NETWORK: nat := 2
  const TOKEN_NETWORK: nat := 3

  // ---------------------------------------------------------------------
  // What each listener writes, as values
  // ---------------------------------------------------------------------

  /** The log lines of `StopServer` on a listener in the given state. */
  function StopLog(created: bool, snaps: seq<Snapshot>): (r: seq<LogEntry>)
    ensures !created ==> r == [LogEntry(ListenerStopFailed, SERVER)]
    ensures created ==> |r| >= 2 && r[|r| - 1] == LogEntry(ListenerStopped, SERVER)
  {
    if !created then [LogEntry(ListenerStopFailed, SERVER)]
    else
      var r := Sweep(snaps, true);
      r.logged + [LogEntry(TotalClosed(r.closed), SERVER), LogEntry(ListenerStopped, SERVER)]
  }

  /** The log lines of stopping every listener, first to last. */
  function StopLogs(created: seq<bool>, snaps: seq<seq<Snapshot>>): (r: seq<LogEntry>)
    requires |created| == |snaps|
    ensures |r| >= |created|
    decreases |created|
  {
    if created == [] then []
    else
      var n := |created| - 1;
      StopLogs(created[..n], snaps[..n]) + StopLog(created[n], snaps[n])
  }

  lemma {:induction false} StopLogsSnoc(created: seq<bool>, snaps: seq<seq<Snapshot>>, i: nat)
    requires i < |created| == |snaps|
    ensures StopLogs(created[..i + 1], snaps[..i + 1]) == StopLogs(created[..i], snaps[..i]) + StopLog(created[i], snaps[i])
  {
    assert created[..i + 1][..i] == created[..i] && snaps[..i + 1][..i] == snaps[..i];
  }

  lemma {:induction false} AppendAssoc<T>(a: seq<T>, b: seq<T>, c: seq<T>)
    ensures (a + b) + c == a + (b + c)
  {
  }

  /** The log lines of `ClearProxyClientListing(false)` on sessions in the given state. */
  function CleanLog(snaps: seq<Snapshot>): (r: seq<LogEntry>)
    ensures |r| >= 1 && r[|r| - 1] == LogEntry(TotalClosed(Sweep(snaps, false).closed), SERVER)
  {
    var r := Sweep(snaps, false);
    r.logged + [LogEntry(TotalClosed(r.closed), SERVER)]
  }

  /** The log lines of cleaning every listener, first to last. */
  function CleanLogs(snaps: seq<seq<Snapshot>>): (r: seq<LogEntry>)
    ensures |r| >= |snaps|
    decreases |snaps|
  {
    if snaps == [] then []
    else
      var n := |snaps| - 1;
      CleanLogs(snaps[..n]) + CleanLog(snaps[n])
  }

  lemma {:induction false} CleanLogsSnoc(snaps: seq<seq<Snapshot>>, i: nat)
    requires i < |snaps|
    ensures CleanLogs(snaps[..i + 1]) == CleanLogs(snaps[..i]) + CleanLog(snaps[i])
  {
    assert snaps[..i + 1][..i] == snaps[..i];
  }

  /** The one line cleaning writes about consistent sessions: how many are dead. */
  function DeadLine(snaps: seq<Snapshot>): LogEntry
  {
    LogEntry(TotalClosed(CountOf(AliveFlags(snaps), false)), SERVER)
  }

  /**
   * Cleaning consistent sessions only counts the dead ones: each listener
   * writes exactly one line, the number of its dead sessions.
   */
  lemma {:induction false} CleanLogsCountDead(snaps: seq<seq<Snapshot>>)
    requires forall j :: 0 <= j < |snaps| ==> AllValid(snaps[j])
    ensures |CleanLogs(snaps)| == |snaps|
    ensures forall j :: 0 <= j < |snaps| ==> CleanLogs(snaps)[j] == DeadLine(snaps[j])
    decreases |snaps|
  {
    if snaps != [] {
      var n := |snaps| - 1;
      var prefix := snaps[..n];
      CleanLogsCountDead(prefix);
      SweepDeadChangesNothing(snaps[n]);
      assert CleanLog(snaps[n]) == [DeadLine(snaps[n])];
      forall j | 0 <= j < n
        ensures CleanLogs(snaps)[j] == DeadLine(snaps[j])
      {
        assert prefix[j] == snaps[j];
      }
    }
  }

  // ---------------------------------------------------------------------
  // The listeners and their sessions
  // ---------------------------------------------------------------------

  /** Every session in one of the session sequences. */
  ghost function Members(ents: seq<seq<ProxyClient>>): set<ProxyClient>
  {
    set j, c | 0 <= j < |ents| && c in ents[j] :: c
  }

  /** Every session registered with one of the listeners, read afresh in each state. */
  ghost function Sessions(ls: seq<ProxyServerListener>): set<ProxyClient>
    reads set l | l in ls
  {
    set l, c | l in ls && c in l.entries :: c
  }

  lemma {:induction false} SessionsAreMembers(ls: seq<ProxyServerListener>)
    ensures Sessions(ls) == Members(EntriesOf(ls))
  {
    var ents := EntriesOf(ls);
    forall c | c in Sessions(ls) ensures c in Members(ents) {
      var l :| l in ls && c in l.entries;
      var j :| 0 <= j < |ls| && ls[j] == l;
      assert c in ents[j];
    }
    forall c | c in Members(ents) ensures c in Sessions(ls) {
      var j :| 0 <= j < |ents| && c in ents[j];
      assert c in ls[j].entries;
    }
  }

  lemma SessionsOfEach(ls: seq<ProxyServerListener>)
    ensures forall j, c :: 0 <= j < |ls| && c in ls[j].entries ==> c in Sessions(ls)
  {
  }

  /** A listener none of whose fields and none of whose sessions changed reads the same. */
  twostate lemma {:induction false} Untouched(l: ProxyServerListener)
    requires old(l.Valid())
    requires unchanged(l)
    requires forall c :: c in l.entries ==> unchanged(c)
    ensures l.Valid() && Snap(l.entries) == old(Snap(l.entries))
  {
  }

  /** A shutdown record survives steps that touch neither the listener nor its sessions. */
  twostate lemma {:induction false} StoppedStays(l: ProxyServerListener, new created: bool, new snaps: seq<Snapshot>)
    requires old(StoppedAs(l, created, snaps))
    requires unchanged(l)
    requires forall c :: c in l.entries ==> unchanged(c)
    ensures StoppedAs(l, created, snaps)
  {
    assert forall k :: 0 <= k < |l.entries| ==> l.entries[k] in l.entries;
    assert StatusesOf(l.entries) == old(StatusesOf(l.entries));
    assert Snap(l.entries) == old(Snap(l.entries));
  }

  /** `listenerCreated` of each listener. */
  ghost function CreatedFlags(ls: seq<ProxyServerListener>): (r: seq<bool>)
    reads set l | l in ls
    ensures |r| == |ls| && forall j :: 0 <= j < |ls| ==> r[j] == ls[j].listenerCreated
  {
    seq(|ls|, j requires 0 <= j < |ls| reads set l | l in ls => ls[j].listenerCreated)
  }

  /** The sessions of each listener, read off. */
  ghost function SnapsOf(ls: seq<ProxyServerListener>): (r: seq<seq<Snapshot>>)
    reads (set l | l in ls), Sessions(ls)
    ensures |r| == |ls| && forall j :: 0 <= j < |ls| ==> r[j] == Snap(ls[j].entries)
  {
    seq(|ls|, j requires 0 <= j < |ls| reads (set l | l in ls), Sessions(ls) => Snap(ls[j].entries))
  }

  /** The session sequence of each listener. */
  ghost function EntriesOf(ls: seq<ProxyServerListener>): (r: seq<seq<ProxyClient>>)
    reads set l | l in ls
    ensures |r| == |ls| && forall j :: 0 <= j < |ls| ==> r[j] == ls[j].entries
  {
    seq(|ls|, j requires 0 <= j < |ls| reads set l | l in ls => ls[j].entries)
  }

  /**
   * What StopServer leaves behind on a listener that had `created` and whose
   * sessions read `snaps`: it is closed; if its socket had been created, the
   * socket is released, every session went through the closing sweep and none
   * is alive; otherwise the sessions are untouched.
   */
  ghost predicate StoppedAs(l: ProxyServerListener, created: bool, snaps: seq<Snapshot>)
    reads l, l.entries
  {
    && l.serverIsClosed && l.listenerCreated == created
    && |l.entries| == |snaps|
    && (created ==>
          && !l.listening && l.scopeCancelled
          && (forall k :: 0 <= k < |l.entries| ==> l.entries[k].State() == Sweep(snaps, true).states[k])
          && StatCount(StatusesOf(l.entries), COUNT_ALIVE) == 0)
    && (!created ==> Snap(l.entries) == snaps)
  }

  /** Where StopProxyServer has got to on `l`: stopped already (`done`) or as it was. */
  ghost predicate StopStage(l: ProxyServerListener, created: bool, snaps: seq<Snapshot>, done: bool)
    reads l, l.entries
  {
    && l.Valid()
    && (if done then StoppedAs(l, created, snaps)
        else l.listenerCreated == created && Snap(l.entries) == snaps)
  }

  /** A stage survives steps that touch neither the listener nor its sessions. */
  twostate lemma {:induction false} StageStays(l: ProxyServerListener, new created: bool, new snaps: seq<Snapshot>,
                                               new done: bool)
    requires old(StopStage(l, created, snaps, done))
    requires unchanged(l)
    requires forall c :: c in l.entries ==> unchanged(c)
    ensures StopStage(l, created, snaps, done)
  {
    Untouched(l);
    if done {
      StoppedStays(l, created, snaps);
    }
  }

  /** Every listener is consistent. */
  ghost predicate ListenersValid(ls: seq<ProxyServerListener>)
    reads (set l | l in ls), Sessions(ls)
  {
    SessionsOfEach(ls);
    forall j :: 0 <= j < |ls| ==> ls[j].Valid()
  }

  /** Every listener is stopped as `StoppedAs` says, from its flag and session states. */
  ghost predicate ListenersStopped(ls: seq<ProxyServerListener>, created0: seq<bool>, snaps0: seq<seq<Snapshot>>)
    requires |created0| == |snaps0| == |ls|
    reads (set l | l in ls), Sessions(ls)
  {
    SessionsOfEach(ls);
    forall j :: 0 <= j < |ls| ==> StoppedAs(ls[j], created0[j], snaps0[j])
  }

  /** The listeners are distinct and share the logger. */
  ghost predicate Linked(ls: seq<ProxyServerListener>, logger: Logger)
  {
    && NoDuplicates(ls)
    && (forall j :: 0 <= j < |ls| ==> ls[j].logger == logger)
  }

  /** No session is registered with two listeners. */
  ghost predicate Disjoint(ents: seq<seq<ProxyClient>>)
  {
    forall j, k, c :: 0 <= j < k < |ents| && c in ents[j] ==> c !in ents[k]
  }

  /** Session sequences that are pairwise disjoint and all drawn from `sessions`. */
  ghost predicate Owned(ents: seq<seq<ProxyClient>>, sessions: set<ProxyClient>)
  {
    && Disjoint(ents)
    && (forall j, c :: 0 <= j < |ents| && c in ents[j] ==> c in sessions)
  }

  lemma {:induction false} OwnedByMembers(ents: seq<seq<ProxyClient>>)
    requires Disjoint(ents)
    ensures Owned(ents, Members(ents))
  {
  }

  class AutomationSystem {
    const listeners: seq<ProxyServerListener>   // _proxyServerNetwork
    const logger: Logger

    /**
     * The listeners are linked, own disjoint sessions, and each is consistent.
     * The sessions are whatever the listeners hold now, so accepts that happen
     * after construction keep the automation consistent.
     */
    ghost predicate Valid()
      reads (set l | l in listeners), Sessions(listeners)
    {
      && Linked(listeners, logger)
      && Disjoint(EntriesOf(listeners))
      && ListenersValid(listeners)
    }

    constructor (listeners: seq<ProxyServerListener>, logger: Logger)
      requires Linked(listeners, logger)
      requires forall j, k, c :: 0 <= j < k < |listeners| && c in listeners[j].entries ==> c !in listeners[k].entries
      requires forall j :: 0 <= j < |listeners| ==> listeners[j].Valid()
      ensures Valid()
      ensures this.listeners == listeners && this.logger == logger
    {
      this.listeners := listeners;
      this.logger := logger;
    }

    /**
     * AutoCleanProxyServer: `ClearProxyClientListing(false)` on every listener
     * in list order. Each session's state is what that sweep gives, so dead
     * sessions are counted and alive ones are left alone.
     */
    method AutoCleanProxyServer()
      requires Valid()
      modifies Sessions(listeners), logger
      ensures Valid()
      ensures forall j :: 0 <= j < |listeners| ==> listeners[j].entries == old(listeners[j].entries)
      ensures forall j :: 0 <= j < |listeners| ==> Snap(listeners[j].entries) == old(Snap(listeners[j].entries))
      ensures logger.entries == old(logger.entries) + CleanLogs(old(SnapsOf(listeners)))
    {
      ghost var snaps0, entries0, log0 := SnapsOf(listeners), EntriesOf(listeners), logger.entries;
      OwnedByMembers(entries0);
      SessionsAreMembers(listeners);
      assert CleanLogs(snaps0[..0]) == [];
      var i := 0;
      while i < |listeners|
        invariant CleanedUpTo(i, snaps0, entries0, log0)
      {
        CleanOne(i, snaps0, entries0, log0);
        i := i + 1;
      }
      assert snaps0[..|listeners|] == snaps0;
      assert EntriesOf(listeners) == entries0;
    }

    /** Progress of AutoCleanProxyServer after the first `i` listeners. */
    ghost predicate CleanedUpTo(i: nat, snaps0: seq<seq<Snapshot>>,
                                entries0: seq<seq<ProxyClient>>, log0: seq<LogEntry>)
      reads (set l | l in listeners), Members(entries0), logger
    {
      && i <= |listeners| && |snaps0| == |entries0| == |listeners|
      && Linked(listeners, logger) && Owned(entries0, Members(entries0))
      && (forall j :: 0 <= j < |listeners| ==> listeners[j].entries == entries0[j])
      && (forall j :: 0 <= j < |listeners| ==> listeners[j].Valid())
      && (forall j :: 0 <= j < |listeners| ==> Snap(listeners[j].entries) == snaps0[j])
      && (forall j :: 0 <= j < |listeners| ==> AllValid(snaps0[j]))
      && logger.entries == log0 + CleanLogs(snaps0[..i])
    }

    /** One iteration of AutoCleanProxyServer: listener `i`. */
    method CleanOne(i: nat, ghost snaps0: seq<seq<Snapshot>>,
                    ghost entries0: seq<seq<ProxyClient>>, ghost log0: seq<LogEntry>)
      requires i < |listeners| && CleanedUpTo(i, snaps0, entries0, log0)
      modifies Members(entries0), logger
      ensures CleanedUpTo(i + 1, snaps0, entries0, log0)
    {
      var l := listeners[i];
      ghost var prev := CleanLogs(snaps0[..i]);
      CleanAt(l, snaps0[i]);
      CleanLogsSnoc(snaps0, i);
      AppendAssoc(log0, prev, CleanLog(snaps0[i]));
      OthersStayClean(i, snaps0, entries0);
    }

    /** Cleaning listener `i` leaves the other listeners as they were. */
    twostate lemma {:induction false} OthersStayClean(new i: nat,
                                                      new snaps0: seq<seq<Snapshot>>,
                                                      new entries0: seq<seq<ProxyClient>>)
      requires i < |listeners| && |snaps0| == |entries0| == |listeners|
      requires Linked(listeners, logger) && Owned(entries0, Members(entries0))
      requires forall j :: 0 <= j < |listeners| ==> listeners[j].entries == entries0[j]
      requires forall j :: 0 <= j < |listeners| ==> old(listeners[j].Valid()) && old(Snap(listeners[j].entries)) == snaps0[j]
      requires forall j :: 0 <= j < |listeners| ==> unchanged(listeners[j])
      requires forall c :: c in Members(entries0) && c !in entries0[i] ==> unchanged(c)
      ensures forall j :: 0 <= j < |listeners| && j != i ==> listeners[j].Valid() && Snap(listeners[j].entries) == snaps0[j]
    {
      forall j | 0 <= j < |listeners| && j != i
        ensures listeners[j].Valid() && Snap(listeners[j].entries) == snaps0[j]
      {
        assert forall c :: c in listeners[j].entries ==> c in Members(entries0) && c !in entries0[i];
        Untouched(listeners[j]);
      }
    }

    /** ClearProxyClientListing(false) on one listener whose Members(entries0) read `snaps`. */
    method CleanAt(l: ProxyServerListener, ghost snaps: seq<Snapshot>)
      requires l.Valid() && l.logger == logger && Snap(l.entries) == snaps && AllValid(snaps)
      modifies l.entries, logger
      ensures l.Valid() && Snap(l.entries) == snaps
      ensures logger.entries == old(logger.entries) + CleanLog(snaps)
    {
      ghost var r := Sweep(snaps, false);
      AppendAssoc(logger.entries, r.logged, [LogEntry(TotalClosed(r.closed), SERVER)]);
      l.ClearProxyClientListing(false);
      SweepDeadChangesNothing(snaps);
      assert Snap(l.entries) == snaps;
    }

    /**
     * StopProxyServer: `StopServer` on every listener in list order, ignoring
     * what each returns; the answer is always true.
     */
    method StopProxyServer() returns (ok: bool)
      requires Valid()
      modifies (set l | l in listeners), Sessions(listeners), logger
      ensures Valid() && ok
      ensures AllStopped(old(EntriesOf(listeners)), old(CreatedFlags(listeners)), old(SnapsOf(listeners)))
      ensures logger.entries == old(logger.entries) + StopLogs(old(CreatedFlags(listeners)), old(SnapsOf(listeners)))
    {
      ghost var created0, snaps0, log0 := CreatedFlags(listeners), SnapsOf(listeners), logger.entries;
      ghost var entries0 := EntriesOf(listeners);
      OwnedByMembers(entries0);
      SessionsAreMembers(listeners);
      assert StopLogs(created0[..0], snaps0[..0]) == [];
      var i := 0;
      while i < |listeners|
        invariant StopProgress(i, created0, snaps0, entries0, log0)
      {
        StopOne(i, created0, snaps0, entries0, log0);
        i := i + 1;
      }
      assert created0[..|listeners|] == created0 && snaps0[..|listeners|] == snaps0;
      assert EntriesOf(listeners) == entries0;
      ok := true;
    }

    /**
     * Every listener keeps its Members(entries0) and is stopped as `StoppedAs` says,
     * from the flag and session states it had.
     */
    ghost predicate AllStopped(entries0: seq<seq<ProxyClient>>, created0: seq<bool>, snaps0: seq<seq<Snapshot>>)
      reads (set l | l in listeners), Sessions(listeners)
    {
      && |entries0| == |created0| == |snaps0| == |listeners| && Disjoint(entries0)
      && (forall j :: 0 <= j < |listeners| ==> listeners[j].entries == entries0[j])
      && ListenersStopped(listeners, created0, snaps0)
    }

    /** A step that changes neither a listener nor a session keeps them consistent and stopped. */
    twostate lemma {:induction false} StoppedStay(entries0: seq<seq<ProxyClient>>, new created0: seq<bool>,
                                                  new snaps0: seq<seq<Snapshot>>)
      requires old(Valid()) && old(AllStopped(entries0, created0, snaps0))
      requires unchanged(set l | l in listeners) && unchanged(Sessions(listeners))
      ensures Valid() && AllStopped(entries0, created0, snaps0)
    {
    }

    /** Progress of StopProxyServer after the first `i` listeners. */
    ghost predicate StopProgress(i: nat, created0: seq<bool>, snaps0: seq<seq<Snapshot>>,
                                 entries0: seq<seq<ProxyClient>>, log0: seq<LogEntry>)
      reads (set l | l in listeners), Members(entries0), logger
    {
      && i <= |listeners| && |created0| == |snaps0| == |entries0| == |listeners|
      && Linked(listeners, logger) && Owned(entries0, Members(entries0))
      && (forall j :: 0 <= j < |listeners| ==> listeners[j].entries == entries0[j])
      && (forall j :: 0 <= j < |listeners| ==> StopStage(listeners[j], created0[j], snaps0[j], j < i))
      && logger.entries == log0 + StopLogs(created0[..i], snaps0[..i])
    }

    /** One iteration of StopProxyServer: listener `i`. */
    method StopOne(i: nat, ghost created0: seq<bool>, ghost snaps0: seq<seq<Snapshot>>,
                   ghost entries0: seq<seq<ProxyClient>>, ghost log0: seq<LogEntry>)
      requires i < |listeners| && StopProgress(i, created0, snaps0, entries0, log0)
      modifies (set l | l in listeners), Members(entries0), logger
      ensures StopProgress(i + 1, created0, snaps0, entries0, log0)
    {
      var l := listeners[i];
      StopAt(l, created0[i], snaps0[i]);
      StopStep(i, created0, snaps0, entries0, log0);
    }

    /** The state StopAt leaves on listener `i` is the progress one step further. */
    twostate lemma {:induction false} StopStep(new i: nat, new created0: seq<bool>,
                                               new snaps0: seq<seq<Snapshot>>, entries0: seq<seq<ProxyClient>>,
                                               new log0: seq<LogEntry>)
      requires i < |listeners| && old(StopProgress(i, created0, snaps0, entries0, log0))
      requires listeners[i].Valid() && listeners[i].entries == old(listeners[i].entries)
      requires StoppedAs(listeners[i], created0[i], snaps0[i])
      requires logger.entries == old(logger.entries) + StopLog(created0[i], snaps0[i])
      requires forall j :: 0 <= j < |listeners| && j != i ==> unchanged(listeners[j])
      requires forall c :: c in Members(entries0) && c !in entries0[i] ==> unchanged(c)
      ensures StopProgress(i + 1, created0, snaps0, entries0, log0)
    {
      OthersStayStopped(i, created0, snaps0, entries0);
      StopLogsSnoc(created0, snaps0, i);
      AppendAssoc(log0, StopLogs(created0[..i], snaps0[..i]), StopLog(created0[i], snaps0[i]));
    }

    /** Stopping listener `i` leaves the stages of the other listeners as they were. */
    twostate lemma {:induction false} OthersStayStopped(new i: nat, new created0: seq<bool>,
                                                        new snaps0: seq<seq<Snapshot>>,
                                                        new entries0: seq<seq<ProxyClient>>)
      requires i < |listeners| && |created0| == |snaps0| == |entries0| == |listeners|
      requires Linked(listeners, logger) && Owned(entries0, Members(entries0))
      requires forall j :: 0 <= j < |listeners| ==> old(listeners[j].entries) == entries0[j]
      requires forall j :: 0 <= j < |listeners| ==> old(StopStage(listeners[j], created0[j], snaps0[j], j < i))
      requires forall j :: 0 <= j < |listeners| && j != i ==> unchanged(listeners[j])
      requires forall c :: c in Members(entries0) && c !in entries0[i] ==> unchanged(c)
      ensures forall j :: 0 <= j < |listeners| && j != i ==> StopStage(listeners[j], created0[j], snaps0[j], j < i + 1)
    {
      forall j | 0 <= j < |listeners| && j != i
        ensures StopStage(listeners[j], created0[j], snaps0[j], j < i + 1)
      {
        assert forall c :: c in listeners[j].entries ==> c in Members(entries0) && c !in entries0[i];
        StageStays(listeners[j], created0[j], snaps0[j], j < i + 1);
      }
    }

    /** StopServer on one listener whose flag and Members(entries0) read `created` and `snaps`. */
    method StopAt(l: ProxyServerListener, ghost created: bool, ghost snaps: seq<Snapshot>)
      requires l.Valid() && l.logger == logger
      requires l.listenerCreated == created && Snap(l.entries) == snaps
      modifies l, l.entries, logger
      ensures l.Valid() && l.entries == old(l.entries) && StoppedAs(l, created, snaps)
      ensures logger.entries == old(logger.entries) + StopLog(created, snaps)
    {
      ghost var r := Sweep(snaps, true);
      AppendAssoc(logger.entries, r.logged, [LogEntry(TotalClosed(r.closed), SERVER), LogEntry(ListenerStopped, SERVER)]);
      var stopped := l.StopServer();
    }

    /**
     * One accept step of listener `l` while the automation runs (each listener's
     * accept loop runs beside it): the new session joins `l` only, so the
     * automation stays consistent and every other listener keeps its sessions.
     */
    method AcceptOn(l: ProxyServerListener, clientIp: string, draws: seq<nat>, dialOk: bool)
      returns (session: ProxyClient, ok: bool)
      requires Valid() && l in listeners
      requires DrawsAdmissible(l.setting.seedNodeHostList, l.setting.serverIp, draws)
      modifies l`registry, l`keyOrder, l`entries, logger
      ensures Valid() && fresh(session)
      ensures session.clientIp == clientIp && session.seedNodePort == l.port
      ensures (session.clientCategory, session.seedCategory) == ClassifyPort(l.ports, l.port)
      ensures var r := HandleStep(InitialSession(), session.Config(), l.setting.seedNodeHostList, l.setting.serverIp, draws, dialOk);
        session.State() == r.state && ok == r.ok && logger.entries == old(logger.entries) + r.logged
      ensures l.registry == old(l.registry)[clientIp := Bucket(old(l.registry), clientIp) + (if ok then [session] else [])]
      ensures l.keyOrder == old(l.keyOrder) + (if clientIp in old(l.registry) then [] else [clientIp])
      ensures ok <==> session in l.entries
      ensures forall c :: c in l.entries <==> c in old(l.entries) || (ok && c == session)
      ensures forall k :: 0 <= k < |listeners| && listeners[k] != l ==> listeners[k].entries == old(listeners[k].entries)
    {
      ghost var entries0 := EntriesOf(listeners);
      session, ok := l.AcceptClient(clientIp, draws, dialOk);
      JoinKeepsValid(l, session, ok, entries0);
    }

    /** A fresh session joining one listener keeps the listeners consistent and disjoint. */
    twostate lemma {:induction false} JoinKeepsValid(new l: ProxyServerListener, new session: ProxyClient, new ok: bool,
                                                     entries0: seq<seq<ProxyClient>>)
      requires old(Valid()) && l in listeners && entries0 == old(EntriesOf(listeners))
      requires l.Valid() && !old(allocated(session))
      requires forall c :: c in l.entries <==> c in old(l.entries) || (ok && c == session)
      requires forall k :: 0 <= k < |listeners| && listeners[k] != l ==> unchanged(listeners[k])
      requires forall k, c :: 0 <= k < |entries0| && c in entries0[k] ==> unchanged(c)
      ensures Valid()
      ensures forall k :: 0 <= k < |listeners| && listeners[k] != l ==> listeners[k].entries == entries0[k]
    {
      forall k | 0 <= k < |listeners| && listeners[k] != l
        ensures listeners[k].Valid() && listeners[k].entries == entries0[k]
      {
        Untouched(listeners[k]);
      }
      var ents := EntriesOf(listeners);
      forall a, b, c | 0 <= a < b < |ents| && c in ents[a]
        ensures c !in ents[b]
      {
        if listeners[a] == l {
          assert listeners[b] != l;
        } else if listeners[b] == l {
          assert c in entries0[a];
        }
      }
    }

    /**
     * A connection accepted on listener `j` after the automation was built,
     * then StopProxyServer: the shutdown reaches the new session as well, so no
     * session registered with a listener whose socket was created is alive.
     */
    method AcceptThenStop(j: nat, clientIp: string, draws: seq<nat>, dialOk: bool)
      returns (session: ProxyClient, ok: bool, stopped: bool)
      requires Valid() && j < |listeners|
      requires DrawsAdmissible(listeners[j].setting.seedNodeHostList, listeners[j].setting.serverIp, draws)
      modifies (set l | l in listeners), Sessions(listeners), logger
      ensures Valid() && stopped
      ensures session.clientIp == clientIp && session.seedNodePort == listeners[j].port
      ensures (session.clientCategory, session.seedCategory) == ClassifyPort(listeners[j].ports, listeners[j].port)
      ensures var r := HandleStep(InitialSession(), session.Config(), old(listeners[j].setting.seedNodeHostList),
                                  old(listeners[j].setting.serverIp), draws, dialOk);
        ok == r.ok && old(logger.entries) + r.logged <= logger.entries
      ensures ok <==> session in listeners[j].entries
      ensures forall k, c :: 0 <= k < |listeners| && listeners[k].listenerCreated && c in listeners[k].entries ==> !c.status
    {
      session, ok := AcceptOn(listeners[j], clientIp, draws, dialOk);
      ghost var hosts, serverIp, cfg := listeners[j].setting.seedNodeHostList, listeners[j].setting.serverIp, session.Config();
      ghost var r := HandleStep(InitialSession(), cfg, hosts, serverIp, draws, dialOk);
      ghost var entries0, created0, snaps0 := EntriesOf(listeners), CreatedFlags(listeners), SnapsOf(listeners);
      ghost var log1 := logger.entries;
      assert ok == r.ok && log1 == old(logger.entries) + r.logged;
      assert forall k :: 0 <= k < |snaps0| ==> AllValid(snaps0[k]);
      JoinedSessions(listeners[j], session, ok);
      stopped := StopProxyServer();
      assert log1 <= logger.entries;
      StoppedNoneAlive(created0, snaps0);
    }

    /** One session joining one listener is the only session the listeners gain. */
    twostate lemma {:induction false} JoinedSessions(new l: ProxyServerListener, new session: ProxyClient, new ok: bool)
      requires l in listeners
      requires forall c :: c in l.entries <==> c in old(l.entries) || (ok && c == session)
      requires forall k :: 0 <= k < |listeners| && listeners[k] != l ==> listeners[k].entries == old(listeners[k].entries)
      ensures forall c :: c in Sessions(listeners) ==> c in old(Sessions(listeners)) || c == session
    {
      forall c | c in Sessions(listeners)
        ensures c in old(Sessions(listeners)) || c == session
      {
        var m :| m in listeners && c in m.entries;
        var k :| 0 <= k < |listeners| && listeners[k] == m;
      }
    }

    /** After the shutdown, no session registered with a created listener is alive. */
    lemma {:induction false} StoppedNoneAlive(created0: seq<bool>, snaps0: seq<seq<Snapshot>>)
      requires |created0| == |snaps0| == |listeners| && forall k :: 0 <= k < |snaps0| ==> AllValid(snaps0[k])
      requires ListenersStopped(listeners, created0, snaps0)
      ensures forall k, c :: 0 <= k < |listeners| && listeners[k].listenerCreated && c in listeners[k].entries ==> !c.status
    {
      SessionsOfEach(listeners);
      forall k, c | 0 <= k < |listeners| && listeners[k].listenerCreated && c in listeners[k].entries
        ensures !c.status
      {
        var n :| 0 <= n < |listeners[k].entries| && listeners[k].entries[n] == c;
        SweepAllClosesEverything(snaps0[k]);
      }
    }

    /** The number of sessions of the listener at `index` with the given status. */
    method NetworkCount(index: nat, stat: ProxyServerEnumStats) returns (total: nat)
      requires Valid() && index < |listeners|
      ensures total == StatCount(StatusesOf(listeners[index].entries), stat)
    {
      total := listeners[index].GetProxyClientCount(stat);
    }

    /** GetTotalOnlineNetworkConnection: the first listener's count. */
    method GetTotalOnlineNetworkConnection(stat: ProxyServerEnumStats) returns (total: nat)
      requires Valid() && |listeners| > ONLINE_NETWORK
      ensures total == StatCount(StatusesOf(listeners[ONLINE_NETWORK].entries), stat)
    {
      total := NetworkCount(ONLINE_NETWORK, stat);
    }

    /** GetTotalRemoteHttpNetworkConnection: the second listener's count. */
    method GetTotalRemoteHttpNetworkConnection(stat: ProxyServerEnumStats) returns (total: nat)
      requires Valid() && |listeners| > REMOTE_HTTP_NETWORK
      ensures total == StatCount(StatusesOf(listeners[REMOTE_HTTP_NETWORK].entries), stat)
    {
      total := NetworkCount(REMOTE_HTTP_NETWORK, stat);
    }

    /** GetTotalRemoteNetworkConnection: the third listener's count. */
    method GetTotalRemoteNetworkConnection(stat: ProxyServerEnumStats) returns (total: nat)
      requires Valid() && |listeners| > REMOTE_NETWORK
      ensures total == StatCount(StatusesOf(listeners[REMOTE_NETWORK].entries), stat)
    {
      total := NetworkCount(REMOTE_NETWORK, stat);
    }

    /** GetTotalTokenNetworkConnection: the fourth listener's count. */
    method GetTotalTokenNetworkConnection(stat: ProxyServerEnumStats) returns (total: nat)
      requires Valid() && |listeners| > TOKEN_NETWORK
      ensures total == StatCount(StatusesOf(listeners[TOKEN_NETWORK].entries), stat)
    {
      total := NetworkCount(TOKEN_NETWORK, stat);
    }
  }
}

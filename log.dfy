/**
 * The log collaborator, reduced to what the relay core hands it: a message and
 * the category (log file) it is routed to. The asynchronous per-category file
 * writer is not modelled; `Logger.entries` stands for the in-memory queue that
 * `WriteLine` appends to.
 */
module Log {
  import opened Types

  /** The eight log categories, one file each. */
  datatype LogCategory =
    | GENERAL | SERVER
    | CLIENT_ONLINE | CLIENT_REMOTE | CLIENT_TOKEN
    | SEED_ONLINE | SEED_REMOTE | SEED_TOKEN

  /** The events the core writes to the log (their text is not modelled). */
  datatype LogMessage =
    // session: seed-node link
    | SeedConnected(target: string, port: int, clientIp: string)
    | SeedConnectFailed(drawn: Option<string>)
    // session: byte pump
    | PacketReceived(fromClient: bool, text: string)
    | PumpFailed(fromClient: bool)
    // session: teardown
    | SessionDead(clientIp: string, port: int)
    // listener
    | ListenerStarted(port: int)
    | ListenerStartFailed(port: int)
    | ListenerReady(port: int)
    | AcceptFailed
    | TotalClosed(count: nat)
    | ListenerStopped
    | ListenerStopFailed
    // operator console
    | HostRejectedInvalid(host: string)
    | HostRejectedDuplicate(host: string)
    | HostRejectedSelf(host: string)
    | HelpLine(line: nat)
    | StatsHeader(network: nat)
    | StatsTotal(network: nat, count: nat)
    | StatsAlive(network: nat, count: nat)
    | StatsDead(network: nat, count: nat)
    | StatsFooter(network: nat)
    | ServerClosing
    | ServerClosed
    | ProxyShutDown
    | PressKeyToExit

  datatype LogEntry = LogEntry(message: LogMessage, category: LogCategory)

  /** The shared log sink: every listener and session writes to the same one. */
  class Logger {
    var entries: seq<LogEntry>

    constructor ()
      ensures entries == []
    {
      entries := [];
    }

    method WriteLine(message: LogMessage, category: LogCategory)
      modifies this
      ensures entries == old(entries) + [LogEntry(message, category)]
    {
      entries := entries + [LogEntry(message, category)];
    }
  }
}

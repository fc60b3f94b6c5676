/**
 * The proxy settings object: the server's own IP, the log settings, the
 * listen ports and the seed-node host list that sessions draw from.
 */
module Setting {
  import opened Types

  /**
   * The three port constants of the connector library. Their values are not
   * part of this model; C# `case` labels must differ, so callers that switch
   * on them pass distinct ports.
   */
  datatype ConnectorPorts = ConnectorPorts(seedNodePort: int, remoteNodePort: int, seedNodeTokenPort: int)
  {
    predicate Distinct()
    {
      seedNodePort != remoteNodePort && seedNodePort != seedNodeTokenPort && remoteNodePort != seedNodeTokenPort
    }
  }

  /** Number of buffered log lines that triggers a flush. */
  const DefaultLogIntervalCount: int := 10

  /** The default listen ports, in the order listeners are created. */
  function DefaultServerPorts(ports: ConnectorPorts): seq<int>
  {
    [ports.seedNodePort, ports.remoteNodePort, ports.seedNodeTokenPort]
  }

  /** The known seed-node hosts in enumeration order, without the server's own IP. */
  function WithoutSelf(keys: seq<string>, serverIp: string): (r: seq<string>)
    ensures forall h :: h in r <==> h in keys && h != serverIp
    ensures serverIp !in r
    ensures |r| <= |keys|
  {
    if keys == [] then []
    else
      WithoutSelf(keys[..|keys| - 1], serverIp)
      + (if keys[|keys| - 1] != serverIp then [keys[|keys| - 1]] else [])
  }

  /** Filtering distributes over concatenation: the enumeration order is kept. */
  lemma {:induction false} WithoutSelfAppend(a: seq<string>, b: seq<string>, serverIp: string)
    ensures WithoutSelf(a + b, serverIp) == WithoutSelf(a, serverIp) + WithoutSelf(b, serverIp)
    decreases |b|
  {
    if b == [] {
      assert a + b == a;
    } else {
      var b' := b[..|b| - 1];
      assert (a + b)[..|a + b| - 1] == a + b';
      assert (a + b)[|a + b| - 1] == b[|b| - 1];
      WithoutSelfAppend(a, b', serverIp);
    }
  }

  /** A key list that does not mention the server is kept whole. */
  lemma {:induction false} WithoutSelfKeepsOthers(keys: seq<string>, serverIp: string)
    requires serverIp !in keys
    ensures WithoutSelf(keys, serverIp) == keys
    decreases |keys|
  {
    if keys != [] {
      var k' := keys[..|keys| - 1];
      assert serverIp !in k' by {
        forall h | h in k' ensures h != serverIp {
          assert h in keys;
        }
      }
      WithoutSelfKeepsOthers(k', serverIp);
      assert k' + [keys[|keys| - 1]] == keys;
    }
  }

  /** Removing the server's IP from distinct keys leaves distinct hosts. */
  lemma {:induction false} WithoutSelfNoDuplicates(keys: seq<string>, serverIp: string)
    requires NoDuplicates(keys)
    ensures NoDuplicates(WithoutSelf(keys, serverIp))
    decreases |keys|
  {
    if keys != [] {
      var k' := keys[..|keys| - 1];
      var last := keys[|keys| - 1];
      assert NoDuplicates(k') by {
        forall i, j | 0 <= i < j < |k'| ensures k'[i] != k'[j] {
          assert k'[i] == keys[i] && k'[j] == keys[j];
        }
      }
      WithoutSelfNoDuplicates(k', serverIp);
      var r' := WithoutSelf(k', serverIp);
      if last != serverIp {
        assert last !in k' by {
          forall i | 0 <= i < |k'| ensures k'[i] != last {
            assert k'[i] == keys[i];
          }
        }
        assert last !in r';
        var r := r' + [last];
        forall i, j | 0 <= i < j < |r| ensures r[i] != r[j] {
          if j == |r| - 1 {
            assert r[i] in r';
          }
        }
      }
    }
  }

  /** The settings object. Every field is public and may be reassigned. */
  class ProxySetting {
    var serverIp: string
    var serverLogPath: string
    var serverLogIntervalCount: int
    var serverTargetTokenNetwork: bool
    var serverPort: seq<int>
    var seedNodeHostList: seq<string>

    /**
     * Builds the settings for `serverIp`: the host list is every known
     * seed-node key except the server's own IP, in enumeration order.
     */
    constructor (serverIp: string, serverLogPath: string, ports: ConnectorPorts, knownSeedNodes: seq<string>)
      ensures this.serverIp == serverIp && this.serverLogPath == serverLogPath
      ensures serverLogIntervalCount == DefaultLogIntervalCount
      ensures !serverTargetTokenNetwork
      ensures serverPort == DefaultServerPorts(ports)
      ensures seedNodeHostList == WithoutSelf(knownSeedNodes, serverIp)
    {
      this.serverPort := DefaultServerPorts(ports);
      this.serverTargetTokenNetwork := false;
      this.serverIp := serverIp;
      this.serverLogPath := serverLogPath;
      this.serverLogIntervalCount := DefaultLogIntervalCount;
      this.seedNodeHostList := [];
      new;
      for i := 0 to |knownSeedNodes|
        invariant this.serverIp == serverIp && this.serverLogPath == serverLogPath
        invariant serverLogIntervalCount == DefaultLogIntervalCount
        invariant !serverTargetTokenNetwork && serverPort == DefaultServerPorts(ports)
        invariant seedNodeHostList == WithoutSelf(knownSeedNodes[..i], serverIp)
      {
        assert knownSeedNodes[..i + 1][..i] == knownSeedNodes[..i];
        if knownSeedNodes[i] != serverIp {
          seedNodeHostList := seedNodeHostList + [knownSeedNodes[i]];
        }
      }
      assert knownSeedNodes[..|knownSeedNodes|] == knownSeedNodes;
    }
  }
}

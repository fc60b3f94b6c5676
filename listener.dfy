/**
 * One listening port (`ProxyServerListener`): the registry of sessions keyed by
 * client IP, the accept step, the sweep that closes sessions, the stop path and
 * the session counters. The TCP listener itself is replaced by outcomes the
 * caller supplies.
 */
module Server {
  import opened Types
  import opened Log
  import opened Setting
  import opened Client

  // ---------------------------------------------------------------------
  // Port classification
  // ---------------------------------------------------------------------

  /** The seed-node category that goes with a client category. */
  function SeedCategoryOf(clientCategory: LogCategory): LogCategory
  {
    match clientCategory
    case CLIENT_ONLINE => SEED_ONLINE
    case CLIENT_REMOTE => SEED_REMOTE
    case CLIENT_TOKEN => SEED_TOKEN
    case _ => GENERAL
  }

  /** The `switch` on the listening port: (client category, seed-node category). */
  function ClassifyPort(ports: ConnectorPorts, port: int): (r: (LogCategory, LogCategory))
    ensures r.1 == SeedCategoryOf(r.0)
    ensures r.0 == GENERAL || r.0 == CLIENT_ONLINE || r.0 == CLIENT_REMOTE || r.0 == CLIENT_TOKEN
    ensures r.0 == GENERAL <==>
      port != ports.seedNodePort && port != ports.remoteNodePort && port != ports.seedNodeTokenPort
    ensures ports.Distinct() ==>
      && (port == ports.seedNodePort <==> r == (CLIENT_ONLINE, SEED_ONLINE))
      && (port == ports.remoteNodePort <==> r == (CLIENT_REMOTE, SEED_REMOTE))
      && (port == ports.seedNodeTokenPort <==> r == (CLIENT_TOKEN, SEED_TOKEN))
  {
    if port == ports.seedNodePort then (CLIENT_ONLINE, SEED_ONLINE)
    else if port == ports.remoteNodePort then (CLIENT_REMOTE, SEED_REMOTE)
    else if port == ports.seedNodeTokenPort then (CLIENT_TOKEN, SEED_TOKEN)
    else (GENERAL, GENERAL)
  }

  // ---------------------------------------------------------------------
  // Counting
  // ---------------------------------------------------------------------

  datatype ProxyServerEnumStats = COUNT_ALL | COUNT_ALIVE | COUNT_DEAD

  /** How many of the flags equal `value`. */
  function CountOf(flags: seq<bool>, value: bool): (n: nat)
    ensures n <= |flags|
  {
    if flags == [] then 0
    else CountOf(flags[..|flags| - 1], value) + (if flags[|flags| - 1] == value then 1 else 0)
  }

  /** The counter `GetProxyClientCount` computes, over the sessions' status flags. */
  function StatCount(flags: seq<bool>, stat: ProxyServerEnumStats): nat
  {
    match stat
    case COUNT_ALL => |flags|
    case COUNT_ALIVE => CountOf(flags, true)
    case COUNT_DEAD => CountOf(flags, false)
  }

  /** Every session is either alive or dead: ALL = ALIVE + DEAD. */
  lemma {:induction false} AliveAndDeadMakeAll(flags: seq<bool>)
    ensures StatCount(flags, COUNT_ALL) == StatCount(flags, COUNT_ALIVE) + StatCount(flags, COUNT_DEAD)
    decreases |flags|
  {
    if flags != [] {
      AliveAndDeadMakeAll(flags[..|flags| - 1]);
    }
  }

  lemma {:induction false} CountOfAppend(a: seq<bool>, b: seq<bool>, value: bool)
    ensures CountOf(a + b, value) == CountOf(a, value) + CountOf(b, value)
    decreases |b|
  {
    if b == [] {
      assert a + b == a;
    } else {
      assert (a + b)[..|a + b| - 1] == a + b[..|b| - 1];
      CountOfAppend(a, b[..|b| - 1], value);
    }
  }

  lemma {:induction false} StatCountAppend(a: seq<bool>, b: seq<bool>, stat: ProxyServerEnumStats)
    ensures StatCount(a + b, stat) == StatCount(a, stat) + StatCount(b, stat)
  {
    CountOfAppend(a, b, true);
    CountOfAppend(a, b, false);
  }

  /** No flag is `value` when every flag is the other one. */
  lemma {:induction false} CountOfNone(flags: seq<bool>, value: bool)
    requires forall i :: 0 <= i < |flags| ==> flags[i] != value
    ensures CountOf(flags, value) == 0
    decreases |flags|
  {
    if flags != [] {
      CountOfNone(flags[..|flags| - 1], value);
    }
  }

  // ---------------------------------------------------------------------
  // The registry as values
  // ---------------------------------------------------------------------

  type Registry = map<string, seq<ProxyClient>>

  /** The sessions stored under `clientIp`, or none when there is no bucket. */
  function Bucket(registry: Registry, clientIp: string): seq<ProxyClient>
  {
    if clientIp in registry then registry[clientIp] else []
  }

  /** The sessions in enumeration order: bucket after bucket, in the order of `keys`. */
  function Flatten(registry: Registry, keys: seq<string>): seq<ProxyClient>
    decreases |keys|
  {
    if keys == [] then []
    else Flatten(registry, keys[..|keys| - 1]) + Bucket(registry, keys[|keys| - 1])
  }

  lemma {:induction false} FlattenAppend(registry: Registry, a: seq<string>, b: seq<string>)
    ensures Flatten(registry, a + b) == Flatten(registry, a) + Flatten(registry, b)
    decreases |b|
  {
    if b == [] {
      assert a + b == a;
    } else {
      assert (a + b)[..|a + b| - 1] == a + b[..|b| - 1];
      FlattenAppend(registry, a, b[..|b| - 1]);
    }
  }

  lemma {:induction false} FlattenIgnoresOtherKey(registry: Registry, keys: seq<string>, clientIp: string, bucket: seq<ProxyClient>)
    requires clientIp !in keys
    ensures Flatten(registry[clientIp := bucket], keys) == Flatten(registry, keys)
    decreases |keys|
  {
    if keys != [] {
      FlattenIgnoresOtherKey(registry, keys[..|keys| - 1], clientIp, bucket);
    }
  }

  lemma {:induction false} FlattenSnoc(registry: Registry, keys: seq<string>, key: string)
    ensures Flatten(registry, keys + [key]) == Flatten(registry, keys) + Bucket(registry, key)
  {
    assert (keys + [key])[..|keys|] == keys;
  }

  lemma {:induction false} AppendToExistingBucket(registry: Registry, left: seq<string>, clientIp: string, right: seq<string>, extra: seq<ProxyClient>)
    requires clientIp !in left && clientIp !in right
    ensures Flatten(registry, left + [clientIp] + right)
              == (Flatten(registry, left) + Bucket(registry, clientIp)) + Flatten(registry, right)
    ensures Flatten(registry[clientIp := Bucket(registry, clientIp) + extra], left + [clientIp] + right)
              == (Flatten(registry, left) + Bucket(registry, clientIp)) + extra + Flatten(registry, right)
  {
    var bucket := Bucket(registry, clientIp);
    var updated := registry[clientIp := bucket + extra];
    var middle := left + [clientIp];
    FlattenAppend(registry, middle, right);
    FlattenSnoc(registry, left, clientIp);
    assert Flatten(registry, middle + right) == Flatten(registry, left) + bucket + Flatten(registry, right);
    FlattenAppend(updated, middle, right);
    FlattenSnoc(updated, left, clientIp);
    assert Bucket(updated, clientIp) == bucket + extra;
    FlattenIgnoresOtherKey(registry, left, clientIp, bucket + extra);
    FlattenIgnoresOtherKey(registry, right, clientIp, bucket + extra);
    var l, r := Flatten(registry, left), Flatten(registry, right);
    assert Flatten(updated, middle + right) == l + (bucket + extra) + r;
    RegroupAppend(l, bucket, extra, r);
  }

  lemma {:induction false} UpdateTwice<K, V>(m: map<K, V>, k: K, first: V, second: V)
    ensures m[k := first][k := second] == m[k := second]
  {
  }

  lemma {:induction false} RegroupAppend<T>(a: seq<T>, b: seq<T>, c: seq<T>, d: seq<T>)
    ensures a + (b + c) + d == (a + b) + c + d
  {
  }

  /**
   * Appending `extra` to the bucket of `clientIp` (creating the bucket, and
   * its key at the end of the order, when it is missing) inserts `extra` into
   * the enumeration at one place and moves nothing else.
   */
  lemma {:induction false} AppendToBucket(registry: Registry, keys: seq<string>, clientIp: string, extra: seq<ProxyClient>)
    returns (before: seq<ProxyClient>, after: seq<ProxyClient>)
    requires forall k :: k in registry <==> k in keys
    requires NoDuplicates(keys)
    ensures Flatten(registry, keys) == before + after
    ensures Flatten(registry[clientIp := Bucket(registry, clientIp) + extra],
                    keys + (if clientIp in registry then [] else [clientIp])) == before + extra + after
  {
    if clientIp in registry {
      var left, right := SplitAtKey(keys, clientIp);
      AppendToExistingBucket(registry, left, clientIp, right, extra);
      assert keys + [] == keys;
      before := Flatten(registry, left) + Bucket(registry, clientIp);
      after := Flatten(registry, right);
    } else {
      AppendToNewBucket(registry, keys, clientIp, extra);
      before := Flatten(registry, keys);
      after := [];
    }
  }

  lemma {:induction false} AppendToNewBucket(registry: Registry, keys: seq<string>, clientIp: string, extra: seq<ProxyClient>)
    requires clientIp !in registry && clientIp !in keys
    ensures Flatten(registry[clientIp := Bucket(registry, clientIp) + extra], keys + [clientIp])
              == Flatten(registry, keys) + extra + []
  {
    var updated := registry[clientIp := Bucket(registry, clientIp) + extra];
    FlattenSnoc(updated, keys, clientIp);
    FlattenIgnoresOtherKey(registry, keys, clientIp, Bucket(registry, clientIp) + extra);
    assert Bucket(updated, clientIp) == extra;
    assert Flatten(registry, keys) + extra + [] == Flatten(registry, keys) + extra;
  }

  lemma {:induction false} SplitAtKey(keys: seq<string>, key: string) returns (left: seq<string>, right: seq<string>)
    requires key in keys && NoDuplicates(keys)
    ensures keys == left + [key] + right && key !in left && key !in right
  {
    var n :| 0 <= n < |keys| && keys[n] == key;
    left, right := keys[..n], keys[n + 1..];
    assert keys == left + [key] + right;
    forall j | 0 <= j < |left| ensures left[j] != key {
      assert left[j] == keys[j];
    }
    forall j | 0 <= j < |right| ensures right[j] != key {
      assert right[j] == keys[n + 1 + j];
    }
  }

  lemma {:induction false} InsertKeepsNoDuplicates<T>(before: seq<T>, extra: seq<T>, after: seq<T>)
    requires NoDuplicates(before + after) && NoDuplicates(extra)
    requires forall x :: x in extra ==> x !in before + after
    ensures NoDuplicates(before + extra + after)
  {
    var s := before + extra + after;
    var t := before + after;
    forall i, j | 0 <= i < j < |s| ensures s[i] != s[j] {
      var inI := |before| <= i < |before| + |extra|;
      var inJ := |before| <= j < |before| + |extra|;
      var ti := if i < |before| then i else i - |extra|;
      var tj := if j < |before| then j else j - |extra|;
      if inI && inJ {
        assert s[i] == extra[i - |before|] && s[j] == extra[j - |before|];
      } else if !inI && !inJ {
        assert s[i] == t[ti] && s[j] == t[tj];
      } else if inI {
        assert s[i] == extra[i - |before|] && s[j] == t[tj];
        assert t[tj] in t;
      } else {
        assert s[j] == extra[j - |before|] && s[i] == t[ti];
        assert t[ti] in t;
      }
    }
  }

  lemma {:induction false} AppendFreshKey<T>(keys: seq<T>, key: T)
    requires NoDuplicates(keys) && key !in keys
    ensures NoDuplicates(keys + [key])
  {
  }

  // ---------------------------------------------------------------------
  // The sweep as a function of the sessions' states
  // ---------------------------------------------------------------------

  /** A session's state together with what it was constructed with. */
  datatype Snapshot = Snapshot(state: SessionState, config: SessionConfig)

  datatype SweepResult = SweepResult(states: seq<SessionState>, logged: seq<LogEntry>, closed: nat)

  /**
   * ClearProxyClientListing over the sessions in enumeration order: a session
   * that is dead, or every session when `all`, gets `CloseProxyClient(false)`
   * and is counted.
   */
  function Sweep(snaps: seq<Snapshot>, all: bool): (r: SweepResult)
    ensures |r.states| == |snaps|
    decreases |snaps|
  {
    if snaps == [] then SweepResult([], [], 0)
    else
      var prev := Sweep(snaps[..|snaps| - 1], all);
      var last := snaps[|snaps| - 1];
      if !last.state.alive || all then
        var closed := CloseStep(last.state, last.config, false);
        SweepResult(prev.states + [closed.state], prev.logged + closed.logged, prev.closed + 1)
      else
        SweepResult(prev.states + [last.state], prev.logged, prev.closed)
  }

  function AliveFlags(snaps: seq<Snapshot>): (r: seq<bool>)
    ensures |r| == |snaps| && forall i :: 0 <= i < |snaps| ==> r[i] == snaps[i].state.alive
  {
    seq(|snaps|, i requires 0 <= i < |snaps| => snaps[i].state.alive)
  }

  predicate AllValid(snaps: seq<Snapshot>)
  {
    forall i :: 0 <= i < |snaps| ==> snaps[i].state.Valid()
  }

  /**
   * The full sweep leaves every session dead, closes (and counts) all of
   * them, and writes one death notice per session that was alive.
   */
  lemma {:induction false} SweepAllClosesEverything(snaps: seq<Snapshot>)
    requires AllValid(snaps)
    ensures forall i :: 0 <= i < |snaps| ==> !Sweep(snaps, true).states[i].alive
    ensures forall i :: 0 <= i < |snaps| ==> Sweep(snaps, true).states[i].Valid()
    ensures Sweep(snaps, true).closed == |snaps|
    ensures |Sweep(snaps, true).logged| == CountOf(AliveFlags(snaps), true)
    decreases |snaps|
  {
    if snaps != [] {
      var init := snaps[..|snaps| - 1];
      SweepAllClosesEverything(init);
      assert AliveFlags(snaps)[..|snaps| - 1] == AliveFlags(init);
    }
  }

  /**
   * The partial sweep changes no session (closing a dead one is a no-op),
   * writes no death notice, and counts exactly the dead sessions.
   */
  lemma {:induction false} SweepDeadChangesNothing(snaps: seq<Snapshot>)
    requires AllValid(snaps)
    ensures forall i :: 0 <= i < |snaps| ==> Sweep(snaps, false).states[i] == snaps[i].state
    ensures Sweep(snaps, false).logged == []
    ensures Sweep(snaps, false).closed == CountOf(AliveFlags(snaps), false)
    decreases |snaps|
  {
    if snaps != [] {
      var init := snaps[..|snaps| - 1];
      SweepDeadChangesNothing(init);
      assert AliveFlags(snaps)[..|snaps| - 1] == AliveFlags(init);
    }
  }

  lemma {:induction false} SweepSnoc(snaps: seq<Snapshot>, p: nat, all: bool)
    requires p < |snaps|
    ensures var prev := Sweep(snaps[..p], all);
            var s := snaps[p];
            Sweep(snaps[..p + 1], all) ==
              if !s.state.alive || all then
                SweepResult(prev.states + [CloseStep(s.state, s.config, false).state],
                            prev.logged + CloseStep(s.state, s.config, false).logged, prev.closed + 1)
              else SweepResult(prev.states + [s.state], prev.logged, prev.closed)
  {
    assert snaps[..p + 1][..p] == snaps[..p];
  }

  // ---------------------------------------------------------------------
  // Reading the sessions
  // ---------------------------------------------------------------------

  function StatusesOf(sessions: seq<ProxyClient>): (r: seq<bool>)
    reads set c | c in sessions
    ensures |r| == |sessions| && forall i :: 0 <= i < |sessions| ==> r[i] == sessions[i].status
  {
    seq(|sessions|, i requires 0 <= i < |sessions| reads set c | c in sessions => sessions[i].status)
  }

  ghost function Snap(sessions: seq<ProxyClient>): (r: seq<Snapshot>)
    reads set c | c in sessions
    ensures |r| == |sessions|
    ensures forall i :: 0 <= i < |sessions| ==> r[i] == Snapshot(sessions[i].State(), sessions[i].Config())
  {
    seq(|sessions|, i requires 0 <= i < |sessions| reads set c | c in sessions =>
      Snapshot(sessions[i].State(), sessions[i].Config()))
  }

  lemma {:induction false} StatusesOfAppend(a: seq<ProxyClient>, b: seq<ProxyClient>)
    ensures StatusesOf(a + b) == StatusesOf(a) + StatusesOf(b)
  {
    assert |StatusesOf(a + b)| == |StatusesOf(a) + StatusesOf(b)|;
    forall i | 0 <= i < |a + b| ensures StatusesOf(a + b)[i] == (StatusesOf(a) + StatusesOf(b))[i] {
      if i >= |a| {
        assert (a + b)[i] == b[i - |a|];
      }
    }
  }

  /** Every registered session shares the listener's log, settings and port (all fixed at construction). */
  predicate SessionsLinked(entries: seq<ProxyClient>, logger: Logger, setting: ProxySetting, port: int)
  {
    forall i :: 0 <= i < |entries| ==>
      entries[i].logger == logger && entries[i].setting == setting && entries[i].seedNodePort == port
  }

  /** ... and every one is internally consistent. */
  ghost predicate SessionsValid(entries: seq<ProxyClient>, logger: Logger, setting: ProxySetting, port: int)
    reads entries
  {
    SessionsLinked(entries, logger, setting, port) && AllValid(Snap(entries))
  }

  lemma {:induction false} SnapAppend(a: seq<ProxyClient>, b: seq<ProxyClient>)
    ensures Snap(a + b) == Snap(a) + Snap(b)
  {
    assert |Snap(a + b)| == |Snap(a) + Snap(b)|;
    forall i | 0 <= i < |a + b| ensures Snap(a + b)[i] == (Snap(a) + Snap(b))[i] {
      if i >= |a| {
        assert (a + b)[i] == b[i - |a|];
      }
    }
  }

  lemma {:induction false} SessionsValidInsert(before: seq<ProxyClient>, extra: seq<ProxyClient>, after: seq<ProxyClient>,
                            logger: Logger, setting: ProxySetting, port: int)
    requires SessionsValid(before + after, logger, setting, port) && SessionsValid(extra, logger, setting, port)
    ensures SessionsValid(before + extra + after, logger, setting, port)
  {
    var s, t := before + extra + after, before + after;
    forall i | 0 <= i < |s|
      ensures s[i].logger == logger && s[i].setting == setting && s[i].seedNodePort == port
    {
      if i < |before| {
        assert s[i] == t[i];
      } else if i < |before| + |extra| {
        assert s[i] == extra[i - |before|];
      } else {
        assert s[i] == t[i - |extra|];
      }
    }
    SnapAppend(before, after);
    SnapAppend(before, extra);
    SnapAppend(before + extra, after);
    var sb, se, sa := Snap(before), Snap(extra), Snap(after);
    assert Snap(s) == sb + se + sa;
    forall i | 0 <= i < |s| ensures Snap(s)[i].state.Valid() {
      if i < |before| {
        assert Snap(s)[i] == (sb + sa)[i];
      } else if i < |before| + |extra| {
        assert Snap(s)[i] == se[i - |before|];
      } else {
        assert Snap(s)[i] == (sb + sa)[i - |extra|];
      }
    }
  }

  /** The registry's shape: the key order lists each key once, and `entries` is its enumeration, without repeats. */
  ghost predicate RegistryShape(registry: Registry, keys: seq<string>, entries: seq<ProxyClient>)
  {
    && entries == Flatten(registry, keys)
    && (forall k :: k in registry <==> k in keys)
    && NoDuplicates(keys)
    && NoDuplicates(entries)
  }

  lemma {:induction false} EnsureBucketShape(registry: Registry, keys: seq<string>, entries: seq<ProxyClient>, clientIp: string)
    requires RegistryShape(registry, keys, entries)
    ensures RegistryShape(registry[clientIp := Bucket(registry, clientIp)],
                          keys + (if clientIp in registry then [] else [clientIp]), entries)
  {
    if clientIp in registry {
      assert registry[clientIp := Bucket(registry, clientIp)] == registry;
      assert keys + [] == keys;
    } else {
      var updated := registry[clientIp := []];
      assert Bucket(registry, clientIp) + [] == [];
      AppendToNewBucket(registry, keys, clientIp, []);
      assert Flatten(registry, keys) + [] + [] == Flatten(registry, keys);
      AppendFreshKey(keys, clientIp);
    }
  }

  lemma {:induction false} AppendSessionShape(registry: Registry, keys: seq<string>, entries: seq<ProxyClient>, clientIp: string, session: ProxyClient)
    returns (before: seq<ProxyClient>, after: seq<ProxyClient>)
    requires RegistryShape(registry, keys, entries) && clientIp in registry && session !in entries
    ensures entries == before + after
    ensures RegistryShape(registry[clientIp := registry[clientIp] + [session]], keys, before + [session] + after)
  {
    before, after := AppendToBucket(registry, keys, clientIp, [session]);
    assert keys + [] == keys;
    InsertKeepsNoDuplicates(before, [session], after);
  }

  /** The position in the enumeration of session `i` of the bucket of `keys[k]`. */
  lemma {:induction false} FlattenAt(registry: Registry, keys: seq<string>, k: nat, i: nat)
    requires k < |keys| && i < |Bucket(registry, keys[k])|
    ensures |Flatten(registry, keys[..k])| + i < |Flatten(registry, keys)|
    ensures Flatten(registry, keys)[|Flatten(registry, keys[..k])| + i] == Bucket(registry, keys[k])[i]
  {
    assert keys == keys[..k + 1] + keys[k + 1..];
    assert keys[..k + 1] == keys[..k] + [keys[k]];
    FlattenAppend(registry, keys[..k + 1], keys[k + 1..]);
    FlattenSnoc(registry, keys[..k], keys[k]);
  }

  /** The bucket of `keys[k]` occupies positions `p` to `p + |bucket|` of the enumeration. */
  lemma {:induction false} BucketSlice(registry: Registry, keys: seq<string>, entries: seq<ProxyClient>, k: nat, p: nat)
    requires k < |keys| && entries == Flatten(registry, keys) && keys[k] in registry
    requires p == |Flatten(registry, keys[..k])|
    ensures p + |registry[keys[k]]| <= |entries| && entries[p..p + |registry[keys[k]]|] == registry[keys[k]]
  {
    FlattenSplit(registry, keys, k);
    MiddleSlice(Flatten(registry, keys[..k]), Bucket(registry, keys[k]), Flatten(registry, keys[k + 1..]));
  }

  /** The enumeration is the part before key `k`, its bucket, and the part after. */
  lemma {:induction false} FlattenSplit(registry: Registry, keys: seq<string>, k: nat)
    requires k < |keys|
    ensures Flatten(registry, keys)
              == Flatten(registry, keys[..k]) + Bucket(registry, keys[k]) + Flatten(registry, keys[k + 1..])
  {
    assert keys == keys[..k + 1] + keys[k + 1..];
    FlattenAppend(registry, keys[..k + 1], keys[k + 1..]);
    assert keys[..k + 1] == keys[..k] + [keys[k]];
    FlattenSnoc(registry, keys[..k], keys[k]);
  }

  lemma {:induction false} MiddleSlice<T>(a: seq<T>, b: seq<T>, c: seq<T>)
    ensures (a + b + c)[|a|..|a| + |b|] == b
  {
  }

  /** Bucket `k` fills positions `offsets[k]` to `offsets[k + 1]` of the enumeration. */
  ghost predicate BucketAt(registry: Registry, keys: seq<string>, entries: seq<ProxyClient>, offsets: seq<nat>, k: nat)
    requires k < |keys| && |offsets| == |keys| + 1
  {
    && keys[k] in registry
    && offsets[k] + |registry[keys[k]]| == offsets[k + 1] <= |entries|
    && entries[offsets[k]..offsets[k + 1]] == registry[keys[k]]
  }

  /** Where each bucket starts in the enumeration. */
  lemma {:induction false} BucketOffsets(registry: Registry, keys: seq<string>, entries: seq<ProxyClient>) returns (offsets: seq<nat>)
    requires entries == Flatten(registry, keys) && forall k :: k in keys ==> k in registry
    ensures |offsets| == |keys| + 1 && offsets[0] == 0 && offsets[|keys|] == |entries|
    ensures forall k :: 0 <= k < |keys| ==> BucketAt(registry, keys, entries, offsets, k)
  {
    offsets := seq(|keys| + 1, k requires 0 <= k <= |keys| => |Flatten(registry, keys[..k])|);
    forall k | 0 <= k < |keys|
      ensures BucketAt(registry, keys, entries, offsets, k)
    {
      assert offsets[k] == |Flatten(registry, keys[..k])|;
      assert offsets[k + 1] == |Flatten(registry, keys[..k + 1])|;
      BucketAtOffset(registry, keys, entries, offsets, k);
    }
    assert keys[..|keys|] == keys;
  }

  lemma {:induction false} BucketAtOffset(registry: Registry, keys: seq<string>, entries: seq<ProxyClient>, offsets: seq<nat>, k: nat)
    requires k < |keys| && |offsets| == |keys| + 1 && entries == Flatten(registry, keys) && keys[k] in registry
    requires offsets[k] == |Flatten(registry, keys[..k])| && offsets[k + 1] == |Flatten(registry, keys[..k + 1])|
    ensures BucketAt(registry, keys, entries, offsets, k)
  {
    BucketSlice(registry, keys, entries, k, offsets[k]);
    FlattenThrough(registry, keys, k);
  }

  /** The enumeration up to and including the bucket of `keys[k]`. */
  lemma {:induction false} FlattenThrough(registry: Registry, keys: seq<string>, k: nat)
    requires k < |keys|
    ensures |Flatten(registry, keys[..k + 1])| == |Flatten(registry, keys[..k])| + |Bucket(registry, keys[k])|
  {
    assert keys[..k + 1] == keys[..k] + [keys[k]];
    FlattenSnoc(registry, keys[..k], keys[k]);
  }

  /** The snapshots once the first `p` sessions have been swept into `states`. */
  function SweptSnaps(snaps: seq<Snapshot>, p: nat, states: seq<SessionState>): (r: seq<Snapshot>)
    requires p <= |snaps| && |states| == p
    ensures |r| == |snaps|
  {
    seq(|snaps|, j requires 0 <= j < |snaps| => if j < p then Snapshot(states[j], snaps[j].config) else snaps[j])
  }

  /** Sweeping one more session replaces its snapshot by its swept state. */
  lemma {:induction false} SweptSnapsStep(snaps: seq<Snapshot>, p: nat, all: bool)
    requires p < |snaps|
    ensures var before := Sweep(snaps[..p], all).states;
            var after := Sweep(snaps[..p + 1], all).states;
            SweptSnaps(snaps, p, before)[p := Snapshot(after[p], snaps[p].config)] == SweptSnaps(snaps, p + 1, after)
  {
    SweepSnoc(snaps, p, all);
  }

  /** Closing preserves consistency, so the sweep keeps every session consistent. */
  lemma {:induction false} SweepKeepsValid(snaps: seq<Snapshot>, all: bool)
    requires AllValid(snaps)
    ensures forall i :: 0 <= i < |snaps| ==> Sweep(snaps, all).states[i].Valid()
    decreases |snaps|
  {
    if snaps != [] {
      SweepKeepsValid(snaps[..|snaps| - 1], all);
    }
  }

  lemma {:induction false} SweptSnapsValid(snaps: seq<Snapshot>, p: nat, all: bool)
    requires AllValid(snaps) && p <= |snaps|
    ensures AllValid(SweptSnaps(snaps, p, Sweep(snaps[..p], all).states))
  {
    assert AllValid(snaps[..p]);
    SweepKeepsValid(snaps[..p], all);
  }

  /**
   * Progress of ClearProxyClientListing after `p` sessions of the enumeration,
   * where `done` is the sweep of the first `p` snapshots: those sessions are in
   * the states it gives, the rest are untouched, and the log and the counter
   * hold its output.
   */
  ghost predicate SweptUpTo(entries: seq<ProxyClient>, snaps: seq<Snapshot>, p: nat, done: SweepResult,
                            logger: Logger, log0: seq<LogEntry>, closed: nat)
    reads entries, logger
  {
    && |snaps| == |entries| && p <= |entries| && |done.states| == p && AllValid(snaps)
    && Snap(entries) == SweptSnaps(snaps, p, done.states)
    && logger.entries == log0 + done.logged
    && closed == done.closed
  }

  /** No session is alive after the full sweep: the alive count of its result is 0. */
  lemma {:induction false} SweepAllLeavesNoneAlive(snaps: seq<Snapshot>, flags: seq<bool>)
    requires AllValid(snaps)
    requires |flags| == |snaps| && forall j :: 0 <= j < |snaps| ==> flags[j] == Sweep(snaps, true).states[j].alive
    ensures StatCount(flags, COUNT_ALIVE) == 0
    ensures StatCount(flags, COUNT_ALL) == StatCount(flags, COUNT_DEAD) == |snaps|
  {
    SweepAllClosesEverything(snaps);
    CountOfNone(flags, true);
    AliveAndDeadMakeAll(flags);
  }

  /** Reading the sessions' states off a snapshot sequence produced by the sweep. */
  lemma {:induction false} StatesOfSwept(entries: seq<ProxyClient>, snaps: seq<Snapshot>, states: seq<SessionState>)
    requires |states| == |snaps| && Snap(entries) == SweptSnaps(snaps, |snaps|, states)
    ensures forall j :: 0 <= j < |entries| ==> entries[j].State() == states[j]
  {
    forall j | 0 <= j < |entries|
      ensures entries[j].State() == states[j]
    {
      assert Snap(entries)[j] == Snapshot(states[j], snaps[j].config);
    }
  }

  /** Once every session is in the state the full sweep gives, none is alive. */
  lemma {:induction false} NoneAliveAfterStop(entries: seq<ProxyClient>, snaps: seq<Snapshot>)
    requires |entries| == |snaps| && AllValid(snaps)
    requires forall j :: 0 <= j < |entries| ==> entries[j].State() == Sweep(snaps, true).states[j]
    ensures StatCount(StatusesOf(entries), COUNT_ALIVE) == 0
  {
    var flags := StatusesOf(entries);
    assert forall j :: 0 <= j < |entries| ==> flags[j] == Sweep(snaps, true).states[j].alive;
    SweepAllLeavesNoneAlive(snaps, flags);
  }

  lemma {:induction false} CountSnoc(registry: Registry, keys: seq<string>, key: string, stat: ProxyServerEnumStats)
    ensures StatCount(StatusesOf(Flatten(registry, keys + [key])), stat)
              == StatCount(StatusesOf(Flatten(registry, keys)), stat) + StatCount(StatusesOf(Bucket(registry, key)), stat)
  {
    FlattenSnoc(registry, keys, key);
    StatusesOfAppend(Flatten(registry, keys), Bucket(registry, key));
    StatCountAppend(StatusesOf(Flatten(registry, keys)), StatusesOf(Bucket(registry, key)), stat);
  }

  /** The inner loop of GetProxyClientCount for COUNT_ALIVE and COUNT_DEAD over one bucket. */
  method CountBucket(bucket: seq<ProxyClient>, stat: ProxyServerEnumStats, total0: nat) returns (total: nat)
    requires stat != COUNT_ALL
    ensures total == total0 + StatCount(StatusesOf(bucket), stat)
  {
    total := total0;
    var i := 0;
    while i < |bucket|
      invariant 0 <= i <= |bucket|
      invariant total == total0 + StatCount(StatusesOf(bucket[..i]), stat)
    {
      assert bucket[..i + 1] == bucket[..i] + [bucket[i]];
      StatusesOfAppend(bucket[..i], [bucket[i]]);
      StatCountAppend(StatusesOf(bucket[..i]), StatusesOf([bucket[i]]), stat);
      match stat {
        case COUNT_ALIVE =>
          if bucket[i].status {
            total := total + 1;
          }
        case COUNT_DEAD =>
          if !bucket[i].status {
            total := total + 1;
          }
      }
      i := i + 1;
    }
    assert bucket[..|bucket|] == bucket;
  }

  predicate LogsTo(entries: seq<ProxyClient>, logger: Logger)
  {
    forall i :: 0 <= i < |entries| ==> entries[i].logger == logger
  }

  /**
   * Progress of the outer loop of ClearProxyClientListing after the first `k`
   * keys: the buckets sit at `offsets` in the enumeration and the sessions up
   * to `offsets[k]` have been swept.
   */
  ghost predicate KeysSwept(registry: Registry, keys: seq<string>, entries: seq<ProxyClient>, offsets: seq<nat>,
                            k: nat, all: bool, snaps: seq<Snapshot>, done: SweepResult,
                            logger: Logger, log0: seq<LogEntry>, closed: nat)
    reads entries, logger
  {
    && |offsets| == |keys| + 1 && k <= |keys| && offsets[|keys|] == |entries|
    && (forall j :: 0 <= j < |keys| ==> BucketAt(registry, keys, entries, offsets, j))
    && NoDuplicates(entries) && LogsTo(entries, logger)
    && SweptUpTo(entries, snaps, offsets[k], done, logger, log0, closed)
    && done == Sweep(snaps[..offsets[k]], all)
  }

  /** The loops of ClearProxyClientListing over the registry's value. */
  method SweepRegistry(registry: Registry, keys: seq<string>, all: bool, logger: Logger, ghost entries: seq<ProxyClient>)
    returns (totalClosed: nat)
    requires entries == Flatten(registry, keys) && (forall k :: k in keys ==> k in registry)
    requires NoDuplicates(entries) && AllValid(Snap(entries)) && LogsTo(entries, logger)
    modifies entries, logger
    ensures var snaps := old(Snap(entries));
      var r := Sweep(snaps, all);
      && Snap(entries) == SweptSnaps(snaps, |snaps|, r.states)
      && logger.entries == old(logger.entries) + r.logged
      && totalClosed == r.closed
  {
    ghost var offsets := BucketOffsets(registry, keys, entries);
    ghost var snaps := Snap(entries);
    ghost var log0 := logger.entries;
    ghost var done := Sweep(snaps[..0], all);
    assert Snap(entries) == SweptSnaps(snaps, 0, done.states);
    assert KeysSwept(registry, keys, entries, offsets, 0, all, snaps, done, logger, log0, 0);
    totalClosed, done := SweepKeys(registry, keys, all, logger, entries, offsets, snaps, log0, done);
    assert snaps[..offsets[|keys|]] == snaps;
  }

  /** The outer loop of the sweep, over the keys in order. */
  method SweepKeys(registry: Registry, keys: seq<string>, all: bool, logger: Logger,
                   ghost entries: seq<ProxyClient>, ghost offsets: seq<nat>,
                   ghost snaps: seq<Snapshot>, ghost log0: seq<LogEntry>, ghost done0: SweepResult)
    returns (totalClosed: nat, ghost done: SweepResult)
    requires KeysSwept(registry, keys, entries, offsets, 0, all, snaps, done0, logger, log0, 0)
    modifies entries, logger
    ensures KeysSwept(registry, keys, entries, offsets, |keys|, all, snaps, done, logger, log0, totalClosed)
  {
    totalClosed, done := 0, done0;
    var k := 0;
    while k < |keys|
      invariant KeysSwept(registry, keys, entries, offsets, k, all, snaps, done, logger, log0, totalClosed)
    {
      totalClosed, done := SweepKey(registry, keys, all, logger, entries, offsets, k, snaps, log0, totalClosed, done);
      k := k + 1;
    }
  }

  /** One iteration of the outer loop: the bucket of `keys[k]`. */
  method SweepKey(registry: Registry, keys: seq<string>, all: bool, logger: Logger,
                  ghost entries: seq<ProxyClient>, ghost offsets: seq<nat>, k: nat,
                  ghost snaps: seq<Snapshot>, ghost log0: seq<LogEntry>, closed: nat, ghost done: SweepResult)
    returns (closedAfter: nat, ghost doneAfter: SweepResult)
    requires k < |keys|
    requires KeysSwept(registry, keys, entries, offsets, k, all, snaps, done, logger, log0, closed)
    modifies entries, logger
    ensures KeysSwept(registry, keys, entries, offsets, k + 1, all, snaps, doneAfter, logger, log0, closedAfter)
  {
    assert BucketAt(registry, keys, entries, offsets, k);
    assert BucketSwept(registry[keys[k]], 0, all, entries, offsets[k], snaps, done, logger, log0, closed);
    closedAfter, doneAfter := SweepBucket(registry[keys[k]], all, logger, entries, offsets[k], snaps, log0, closed, done);
  }

  /**
   * Progress of the inner loop over a bucket occupying positions `p` onwards
   * of the enumeration, after its first `i` sessions.
   */
  ghost predicate BucketSwept(bucket: seq<ProxyClient>, i: nat, all: bool, entries: seq<ProxyClient>, p: nat,
                              snaps: seq<Snapshot>, done: SweepResult, logger: Logger, log0: seq<LogEntry>, closed: nat)
    reads entries, logger
  {
    && i <= |bucket| && p + |bucket| <= |entries| && entries[p..p + |bucket|] == bucket
    && NoDuplicates(entries) && LogsTo(entries, logger)
    && SweptUpTo(entries, snaps, p + i, done, logger, log0, closed)
    && done == Sweep(snaps[..p + i], all)
  }

  /**
   * The inner loop of the sweep: every session of one bucket, front to back;
   * the bucket occupies positions `p` onwards of the enumeration.
   */
  method SweepBucket(bucket: seq<ProxyClient>, all: bool, logger: Logger,
                     ghost entries: seq<ProxyClient>, ghost p: nat, ghost snaps: seq<Snapshot>, ghost log0: seq<LogEntry>,
                     closed: nat, ghost done: SweepResult)
    returns (closedAfter: nat, ghost doneAfter: SweepResult)
    requires BucketSwept(bucket, 0, all, entries, p, snaps, done, logger, log0, closed)
    modifies entries, logger
    ensures BucketSwept(bucket, |bucket|, all, entries, p, snaps, doneAfter, logger, log0, closedAfter)
  {
    closedAfter, doneAfter := closed, done;
    var i := 0;
    while i < |bucket|
      invariant BucketSwept(bucket, i, all, entries, p, snaps, doneAfter, logger, log0, closedAfter)
    {
      closedAfter, doneAfter := SweepBucketAt(bucket, i, all, logger, entries, p, snaps, log0, closedAfter, doneAfter);
      i := i + 1;
    }
  }

  /** One iteration of the inner loop: the session at index `i` of the bucket. */
  method SweepBucketAt(bucket: seq<ProxyClient>, i: nat, all: bool, logger: Logger,
                       ghost entries: seq<ProxyClient>, ghost p: nat, ghost snaps: seq<Snapshot>, ghost log0: seq<LogEntry>,
                       closed: nat, ghost done: SweepResult)
    returns (closedAfter: nat, ghost doneAfter: SweepResult)
    requires i < |bucket|
    requires BucketSwept(bucket, i, all, entries, p, snaps, done, logger, log0, closed)
    modifies entries, logger
    ensures BucketSwept(bucket, i + 1, all, entries, p, snaps, doneAfter, logger, log0, closedAfter)
  {
    assert bucket[i] == entries[p..p + |bucket|][i] == entries[p + i];
    closedAfter, doneAfter := SweepEntry(bucket[i], all, logger, entries, p + i, snaps, log0, closed, done);
  }

  /** One iteration of the sweep: the session `c` at position `p` of the enumeration. */
  method SweepEntry(c: ProxyClient, all: bool, logger: Logger,
                    ghost entries: seq<ProxyClient>, ghost p: nat, ghost snaps: seq<Snapshot>, ghost log0: seq<LogEntry>,
                    closed: nat, ghost done: SweepResult)
    returns (closedAfter: nat, ghost doneAfter: SweepResult)
    requires p < |entries| && entries[p] == c
    requires NoDuplicates(entries) && LogsTo(entries, logger)
    requires SweptUpTo(entries, snaps, p, done, logger, log0, closed)
    requires done == Sweep(snaps[..p], all)
    modifies entries, logger
    ensures SweptUpTo(entries, snaps, p + 1, doneAfter, logger, log0, closedAfter)
    ensures doneAfter == Sweep(snaps[..p + 1], all)
  {
    SweepSnoc(snaps, p, all);
    SweptSnapsStep(snaps, p, all);
    doneAfter := Sweep(snaps[..p + 1], all);
    ghost var pre := Snap(entries);
    assert pre[p] == snaps[p];
    assert c.Valid();
    if !c.status || all {
      c.CloseProxyClient(false);
      closedAfter := closed + 1;
      forall j | 0 <= j < |entries|
        ensures Snap(entries)[j] == pre[p := Snapshot(c.State(), c.Config())][j]
      {
        if j != p {
          assert entries[j] != entries[p];
        }
      }
    } else {
      closedAfter := closed;
    }
    assert Snap(entries) == pre[p := Snapshot(doneAfter.states[p], snaps[p].config)];
  }

  /** The loops of GetProxyClientCount over the registry's value. */
  method CountRegistry(registry: Registry, keys: seq<string>, stat: ProxyServerEnumStats) returns (total: nat)
    requires forall k :: k in keys ==> k in registry
    ensures total == StatCount(StatusesOf(Flatten(registry, keys)), stat)
  {
    total := 0;
    var k := 0;
    while k < |keys|
      invariant 0 <= k <= |keys|
      invariant total == StatCount(StatusesOf(Flatten(registry, keys[..k])), stat)
    {
      total := CountKey(registry, keys, k, stat, total);
      k := k + 1;
    }
    assert keys[..|keys|] == keys;
  }

  /** One iteration of the outer loop of GetProxyClientCount: the bucket of `keys[k]`. */
  method CountKey(registry: Registry, keys: seq<string>, k: nat, stat: ProxyServerEnumStats, total0: nat)
    returns (total: nat)
    requires k < |keys| && keys[k] in registry
    requires total0 == StatCount(StatusesOf(Flatten(registry, keys[..k])), stat)
    ensures total == StatCount(StatusesOf(Flatten(registry, keys[..k + 1])), stat)
  {
    var bucket := registry[keys[k]];
    CountThrough(registry, keys, k, stat);
    ghost var next := StatCount(StatusesOf(Flatten(registry, keys[..k + 1])), stat);
    assert next == total0 + StatCount(StatusesOf(bucket), stat);
    if stat == COUNT_ALL {
      assert StatCount(StatusesOf(bucket), stat) == |bucket|;
      total := total0 + |bucket|;
    } else {
      total := CountBucket(bucket, stat, total0);
    }
    assert total == next;
  }

  /** The counter up to and including the bucket of `keys[k]`. */
  lemma {:induction false} CountThrough(registry: Registry, keys: seq<string>, k: nat, stat: ProxyServerEnumStats)
    requires k < |keys| && keys[k] in registry
    ensures StatCount(StatusesOf(Flatten(registry, keys[..k + 1])), stat)
              == StatCount(StatusesOf(Flatten(registry, keys[..k])), stat) + StatCount(StatusesOf(registry[keys[k]]), stat)
  {
    assert keys[..k + 1] == keys[..k] + [keys[k]];
    CountSnoc(registry, keys[..k], keys[k], stat);
  }

  // ---------------------------------------------------------------------
  // The listener object
  // ---------------------------------------------------------------------

  /** One outcome of `AcceptSocketAsync`: a connection from `clientIp`, or an exception. */
  datatype Arrival = Incoming(clientIp: string, draws: seq<nat>, dialOk: bool) | AcceptError

  predicate ArrivalsAdmissible(arrivals: seq<Arrival>, hosts: seq<string>, serverIp: string)
  {
    forall i :: 0 <= i < |arrivals| && arrivals[i].Incoming? ==> DrawsAdmissible(hosts, serverIp, arrivals[i].draws)
  }

  class ProxyServerListener {
    var registry: Registry            // _listProxyClient
    var keyOrder: seq<string>         // key enumeration order: insertion order, a model choice (the dictionary promises none)
    var serverIsClosed: bool
    var listenerCreated: bool         // _serverListener has been assigned
    var listening: bool               // the accept loop has been started and not stopped
    var scopeCancelled: bool          // the listener's cancellation source has fired

    const port: int
    const setting: ProxySetting
    const logger: Logger
    const ports: ConnectorPorts

    /** Every registered session, in enumeration order (kept equal to the flattened registry). */
    ghost var entries: seq<ProxyClient>

    ghost predicate Valid()
      reads this, entries
    {
      && RegistryShape(registry, keyOrder, entries)
      && SessionsValid(entries, logger, setting, port)
    }

    constructor (setting: ProxySetting, port: int, logger: Logger, ports: ConnectorPorts)
      ensures Valid()
      ensures registry == map[] && keyOrder == []
      ensures !serverIsClosed && !listenerCreated && !listening && !scopeCancelled
      ensures this.setting == setting && this.port == port && this.logger == logger && this.ports == ports
    {
      registry := map[];
      keyOrder := [];
      entries := [];
      serverIsClosed := false;
      listenerCreated := false;
      listening := false;
      scopeCancelled := false;
      this.setting := setting;
      this.port := port;
      this.logger := logger;
      this.ports := ports;
    }

    /**
     * Bind and start. `ipParses` is whether the server IP parses as an
     * address, `bindOk` whether the socket could be bound.
     */
    method StartServer(ipParses: bool, bindOk: bool) returns (ok: bool)
      requires Valid()
      modifies this`listenerCreated, this`listening, logger
      ensures Valid()
      ensures ok <==> ipParses && bindOk
      ensures listenerCreated == (old(listenerCreated) || ipParses)
      ensures listening == (old(listening) || ok)
      ensures ok ==> logger.entries == old(logger.entries) + [LogEntry(ListenerStarted(port), SERVER), LogEntry(ListenerReady(port), SERVER)]
      ensures !ok ==> logger.entries == old(logger.entries) + [LogEntry(ListenerStartFailed(port), SERVER)]
    {
      if !ipParses {
        logger.WriteLine(ListenerStartFailed(port), SERVER);
        return false;
      }
      listenerCreated := true;
      if !bindOk {
        logger.WriteLine(ListenerStartFailed(port), SERVER);
        return false;
      }
      logger.WriteLine(ListenerStarted(port), SERVER);
      listening := true;   // the accept loop is started here
      logger.WriteLine(ListenerReady(port), SERVER);
      ok := true;
    }

    /**
     * The accept step for a connection from `clientIp`: build the session with
     * the port's categories, make sure a bucket exists, run HandleProxyClient
     * and append the session only when that succeeded.
     */
    method AcceptClient(clientIp: string, draws: seq<nat>, dialOk: bool) returns (session: ProxyClient, ok: bool)
      requires Valid()
      requires DrawsAdmissible(setting.seedNodeHostList, setting.serverIp, draws)
      modifies this`registry, this`keyOrder, this`entries, logger
      ensures Valid()
      ensures fresh(session)
      ensures session.clientIp == clientIp && session.logger == logger && session.setting == setting
      ensures session.seedNodePort == port
      ensures (session.clientCategory, session.seedCategory) == ClassifyPort(ports, port)
      ensures var r := HandleStep(InitialSession(), session.Config(), setting.seedNodeHostList, setting.serverIp, draws, dialOk);
        session.State() == r.state && ok == r.ok && logger.entries == old(logger.entries) + r.logged
      ensures registry == old(registry)[clientIp := Bucket(old(registry), clientIp) + (if ok then [session] else [])]
      ensures keyOrder == old(keyOrder) + (if clientIp in old(registry) then [] else [clientIp])
      ensures forall c :: c in entries <==> c in old(entries) || (ok && c == session)
    {
      var categories := ClassifyPort(ports, port);
      session := new ProxyClient(clientIp, logger, setting, port, categories.0, categories.1);
      EnsureBucket(clientIp);
      ghost var bucketed := registry;
      ok := HandshakeAndRegister(clientIp, session, draws, dialOk);
      ghost var grown := Bucket(old(registry), clientIp) + (if ok then [session] else []);
      assert registry == bucketed[clientIp := grown];
      UpdateTwice(old(registry), clientIp, Bucket(old(registry), clientIp), grown);
    }

    /**
     * HandleProxyClient on a new session whose bucket exists, then the append
     * when it succeeded.
     */
    method HandshakeAndRegister(clientIp: string, session: ProxyClient, draws: seq<nat>, dialOk: bool) returns (ok: bool)
      requires Valid() && clientIp in registry && session !in entries
      requires session.logger == logger && session.setting == setting && session.seedNodePort == port
      requires session.Valid()
      requires DrawsAdmissible(setting.seedNodeHostList, setting.serverIp, draws)
      modifies this`registry, this`entries, session, logger
      ensures Valid()
      ensures var r := HandleStep(old(session.State()), session.Config(), setting.seedNodeHostList, setting.serverIp, draws, dialOk);
        session.State() == r.state && ok == r.ok && logger.entries == old(logger.entries) + r.logged
      ensures registry == old(registry)[clientIp := old(registry)[clientIp] + (if ok then [session] else [])]
      ensures forall c :: c in entries <==> c in old(entries) || (ok && c == session)
    {
      ghost var snaps := Snap(entries);
      ok := session.HandleProxyClient(draws, dialOk);
      assert Snap(entries) == snaps;
      if ok {
        AppendSession(clientIp, session);
      } else {
        assert registry[clientIp] + [] == registry[clientIp];
        assert registry == registry[clientIp := registry[clientIp] + []];
      }
    }

    /** Create an empty bucket for `clientIp` when there is none; the enumeration is unchanged. */
    method EnsureBucket(clientIp: string)
      requires Valid()
      modifies this`registry, this`keyOrder
      ensures Valid()
      ensures registry == old(registry)[clientIp := Bucket(old(registry), clientIp)]
      ensures keyOrder == old(keyOrder) + (if clientIp in old(registry) then [] else [clientIp])
      ensures entries == old(entries)
    {
      if clientIp in registry {
        assert registry == registry[clientIp := Bucket(registry, clientIp)];
        assert keyOrder + [] == keyOrder;
      } else {
        AddBucket(clientIp);
      }
    }

    /** `TryAdd(clientIp, new List<ProxyClient>())` for an absent key: the key goes last in the order. */
    method AddBucket(clientIp: string)
      requires Valid() && clientIp !in registry
      modifies this`registry, this`keyOrder
      ensures Valid()
      ensures registry == old(registry)[clientIp := []]
      ensures keyOrder == old(keyOrder) + [clientIp]
      ensures entries == old(entries)
    {
      EnsureBucketShape(registry, keyOrder, entries, clientIp);
      keyOrder := keyOrder + [clientIp];
      registry := registry[clientIp := []];
      assert RegistryShape(registry, keyOrder, entries);
      assert SessionsValid(entries, logger, setting, port);
    }

    /** `_listProxyClient[clientIp].Add(session)` for a session that is not yet registered. */
    method AppendSession(clientIp: string, session: ProxyClient)
      requires Valid() && clientIp in registry && session !in entries
      requires session.logger == logger && session.setting == setting && session.seedNodePort == port
      requires session.Valid()
      modifies this`registry, this`entries
      ensures Valid()
      ensures registry == old(registry)[clientIp := old(registry)[clientIp] + [session]]
      ensures forall c :: c in entries <==> c in old(entries) || c == session
    {
      var before, after := AppendSessionShape(registry, keyOrder, entries, clientIp, session);
      assert SessionsValid([session], logger, setting, port);
      SessionsValidInsert(before, [session], after, logger, setting, port);
      registry := registry[clientIp := registry[clientIp] + [session]];
      entries := before + [session] + after;
    }

    /**
     * Close every dead session, or every session when `all`, walking the keys
     * in order and each bucket front to back, then log how many were closed.
     */
    method ClearProxyClientListing(all: bool)
      requires Valid()
      modifies entries, logger
      ensures Valid() && entries == old(entries)
      ensures var r := Sweep(old(Snap(entries)), all);
        && (forall j :: 0 <= j < |entries| ==> entries[j].State() == r.states[j])
        && logger.entries == old(logger.entries) + r.logged + [LogEntry(TotalClosed(r.closed), SERVER)]
    {
      ghost var snaps := Snap(entries);
      ghost var reg, keys, ents := registry, keyOrder, entries;
      var totalClosed := SweepRegistry(registry, keyOrder, all, logger, entries);
      ghost var r := Sweep(snaps, all);
      assert snaps[..|snaps|] == snaps;
      SweptSnapsValid(snaps, |snaps|, all);
      ghost var swept := Snap(entries);
      assert swept == SweptSnaps(snaps, |snaps|, r.states);
      logger.WriteLine(TotalClosed(totalClosed), SERVER);
      assert Snap(entries) == swept;
      assert registry == reg && keyOrder == keys && entries == ents;
      StatesOfSwept(entries, snaps, r.states);
    }

    /**
     * GetProxyClientCount: the number of sessions (COUNT_ALL), or of alive or of
     * dead ones, over every bucket; nothing changes.
     */
    method GetProxyClientCount(stat: ProxyServerEnumStats) returns (total: nat)
      requires Valid()
      ensures total == StatCount(StatusesOf(entries), stat)
    {
      total := CountRegistry(registry, keyOrder, stat);
    }

    /**
     * StopServer: mark the server closed, stop the listener, cancel its scope,
     * close every session and log the outcome. Stopping a listener that was
     * never created throws before the sweep; the exception is logged. Either
     * way the result is true.
     */
    method StopServer() returns (ok: bool)
      requires Valid()
      modifies this`serverIsClosed, this`listening, this`scopeCancelled, entries, logger
      ensures Valid() && entries == old(entries) && listenerCreated == old(listenerCreated)
      ensures ok && serverIsClosed
      ensures !old(listenerCreated) ==>
        && listening == old(listening) && scopeCancelled == old(scopeCancelled)
        && Snap(entries) == old(Snap(entries))
        && logger.entries == old(logger.entries) + [LogEntry(ListenerStopFailed, SERVER)]
      ensures old(listenerCreated) ==>
        && !listening && scopeCancelled
        && (var r := Sweep(old(Snap(entries)), true);
            && (forall j :: 0 <= j < |entries| ==> entries[j].State() == r.states[j])
            && logger.entries == old(logger.entries) + r.logged
                                 + [LogEntry(TotalClosed(r.closed), SERVER), LogEntry(ListenerStopped, SERVER)])
      ensures old(listenerCreated) ==> StatCount(StatusesOf(entries), COUNT_ALIVE) == 0
    {
      if listenerCreated {
        CloseListener();
      } else {
        FailToStop();
      }
      ok := true;
    }

    /**
     * StopServer on a listener that was never created: the flag is set, then
     * `_serverListener.Stop()` throws and the exception is logged.
     */
    method FailToStop()
      requires Valid() && !listenerCreated
      modifies this`serverIsClosed, logger
      ensures Valid() && serverIsClosed
      ensures Snap(entries) == old(Snap(entries))
      ensures logger.entries == old(logger.entries) + [LogEntry(ListenerStopFailed, SERVER)]
    {
      ghost var snaps := Snap(entries);
      serverIsClosed := true;
      logger.WriteLine(ListenerStopFailed, SERVER);
      assert Snap(entries) == snaps;
    }

    /**
     * StopServer on a listener that exists: set the flag, stop the listener,
     * cancel the scope, close every session and log success.
     */
    method CloseListener()
      requires Valid() && listenerCreated
      modifies this`serverIsClosed, this`listening, this`scopeCancelled, entries, logger
      ensures Valid()
      ensures serverIsClosed && !listening && scopeCancelled
      ensures var r := Sweep(old(Snap(entries)), true);
        && (forall j :: 0 <= j < |entries| ==> entries[j].State() == r.states[j])
        && logger.entries == old(logger.entries) + r.logged
                             + [LogEntry(TotalClosed(r.closed), SERVER), LogEntry(ListenerStopped, SERVER)]
      ensures StatCount(StatusesOf(entries), COUNT_ALIVE) == 0
    {
      MarkStopped();
      SweepAllAndReport();
    }

    /** The flag, `_serverListener.Stop()` and the cancellation; no session is touched. */
    method MarkStopped()
      requires Valid()
      modifies this`serverIsClosed, this`listening, this`scopeCancelled
      ensures Valid()
      ensures serverIsClosed && !listening && scopeCancelled
      ensures Snap(entries) == old(Snap(entries))
    {
      ghost var snaps := Snap(entries);
      serverIsClosed := true;
      listening := false;
      scopeCancelled := true;
      assert Snap(entries) == snaps;
    }

    /** `ClearProxyClientListing(true)` and the success line. */
    method SweepAllAndReport()
      requires Valid()
      modifies entries, logger
      ensures Valid()
      ensures var r := Sweep(old(Snap(entries)), true);
        && (forall j :: 0 <= j < |entries| ==> entries[j].State() == r.states[j])
        && logger.entries == old(logger.entries) + r.logged
                             + [LogEntry(TotalClosed(r.closed), SERVER), LogEntry(ListenerStopped, SERVER)]
      ensures StatCount(StatusesOf(entries), COUNT_ALIVE) == 0
    {
      ghost var snaps := Snap(entries);
      ghost var log0 := logger.entries;
      ClearProxyClientListing(true);
      ghost var r := Sweep(snaps, true);
      assert logger.entries == log0 + r.logged + [LogEntry(TotalClosed(r.closed), SERVER)];
      ghost var swept := Snap(entries);
      logger.WriteLine(ListenerStopped, SERVER);
      assert Snap(entries) == swept;
      assert logger.entries == log0 + r.logged + [LogEntry(TotalClosed(r.closed), SERVER), LogEntry(ListenerStopped, SERVER)];
      NoneAliveAfterStop(entries, snaps);
    }

    /** The accept loop: one step per arrival while the server is not closed. */
    method AcceptLoop(arrivals: seq<Arrival>) returns (handled: nat)
      requires Valid() && listening
      requires ArrivalsAdmissible(arrivals, setting.seedNodeHostList, setting.serverIp)
      modifies this`registry, this`keyOrder, this`entries, logger
      ensures Valid()
      ensures handled == if old(serverIsClosed) then 0 else |arrivals|
      ensures old(serverIsClosed) ==> registry == old(registry) && keyOrder == old(keyOrder)
      ensures forall k :: k in old(registry) ==> k in registry && old(registry)[k] <= registry[k]
      ensures old(keyOrder) <= keyOrder
      ensures old(serverIsClosed) ==> entries == old(entries) && logger.entries == old(logger.entries)
      ensures old(logger.entries) <= logger.entries
      ensures forall c :: c in old(entries) ==> c in entries
      ensures forall c :: c in entries && c !in old(entries) ==> fresh(c)
    {
      handled := 0;
      while !serverIsClosed && handled < |arrivals|
        invariant Valid()
        invariant handled <= |arrivals|
        invariant old(serverIsClosed) ==> handled == 0
        invariant old(serverIsClosed) ==> registry == old(registry) && keyOrder == old(keyOrder)
        invariant old(serverIsClosed) ==> entries == old(entries) && logger.entries == old(logger.entries)
        invariant forall k :: k in old(registry) ==> k in registry && old(registry)[k] <= registry[k]
        invariant old(keyOrder) <= keyOrder
        invariant old(logger.entries) <= logger.entries
        invariant forall c :: c in old(entries) ==> c in entries
        invariant forall c :: c in entries && c !in old(entries) ==> fresh(c)
      {
        var _, _ := AcceptArrival(arrivals[handled]);
        handled := handled + 1;
      }
    }

    /** One iteration of the accept loop: log a failed accept, or run the accept step. */
    method AcceptArrival(arrival: Arrival) returns (session: ProxyClient?, ok: bool)
      requires Valid()
      requires arrival.Incoming? ==> DrawsAdmissible(setting.seedNodeHostList, setting.serverIp, arrival.draws)
      modifies this`registry, this`keyOrder, this`entries, logger
      ensures Valid()
      ensures forall k :: k in old(registry) ==> k in registry && old(registry)[k] <= registry[k]
      ensures old(keyOrder) <= keyOrder
      ensures arrival.AcceptError? ==>
        && session == null && !ok
        && registry == old(registry) && keyOrder == old(keyOrder) && entries == old(entries)
        && logger.entries == old(logger.entries) + [LogEntry(AcceptFailed, SERVER)]
      ensures arrival.Incoming? ==>
        && session != null && fresh(session)
        && session.clientIp == arrival.clientIp && session.seedNodePort == port
        && (session.clientCategory, session.seedCategory) == ClassifyPort(ports, port)
        && (var r := HandleStep(InitialSession(), session.Config(), setting.seedNodeHostList, setting.serverIp,
                                arrival.draws, arrival.dialOk);
            session.State() == r.state && ok == r.ok && logger.entries == old(logger.entries) + r.logged)
        && registry == old(registry)[arrival.clientIp := Bucket(old(registry), arrival.clientIp) + (if ok then [session as ProxyClient] else [])]
        && keyOrder == old(keyOrder) + (if arrival.clientIp in old(registry) then [] else [arrival.clientIp])
        && (forall c :: c in entries <==> c in old(entries) || (ok && c == session))
    {
      match arrival {
        case AcceptError =>
          ghost var snaps := Snap(entries);
          logger.WriteLine(AcceptFailed, SERVER);
          assert Snap(entries) == snaps;
          session, ok := null, false;
        case Incoming(clientIp, draws, dialOk) =>
          var s;
          s, ok := AcceptClient(clientIp, draws, dialOk);
          session := s;
      }
    }
  }
}

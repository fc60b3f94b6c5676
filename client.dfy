/**
 * One relayed connection (`ProxyClient`): the dial to a randomly drawn seed
 * node, the two byte pumps, the connectivity monitor and the guarded close.
 * Sockets, the random source and the task scheduler are replaced by outcomes
 * the caller supplies; every loop runs sequentially over those outcomes.
 */
module Client {
  import opened Types
  import opened Log
  import opened Setting

  // ---------------------------------------------------------------------
  // Cleaning a chunk before it is forwarded
  // ---------------------------------------------------------------------

  /** The size of the receive buffer each pump allocates once. */
  const PacketBufferSize: nat := 8192

  predicate IsAscii(b: seq<byte>)
  {
    forall i :: 0 <= i < |b| ==> b[i] < 0x80
  }

  predicate HasNoZero(b: seq<byte>)
  {
    forall i :: 0 <= i < |b| ==> b[i] != 0
  }

  /** Bytes to text, one character per byte (UTF-8 on ASCII input). */
  function DecodeText(b: seq<byte>): (s: string)
    ensures |s| == |b|
    ensures forall i :: 0 <= i < |b| ==> s[i] as int == b[i]
  {
    seq(|b|, i requires 0 <= i < |b| => b[i] as char)
  }

  predicate IsByteText(s: string)
  {
    forall i :: 0 <= i < |s| ==> s[i] as int < 256
  }

  /** Text back to bytes, one byte per character (UTF-8 on ASCII text). */
  function EncodeText(s: string): (b: seq<byte>)
    requires IsByteText(s)
    ensures |b| == |s|
    ensures forall i :: 0 <= i < |s| ==> b[i] == s[i] as int
  {
    seq(|s|, i requires 0 <= i < |s| => (s[i] as int) as byte)
  }

  /** `Replace("\0", "")`: every NUL character dropped, the others kept in order. */
  function StripNul(s: string): (r: string)
    ensures forall i :: 0 <= i < |r| ==> r[i] != '\0' && r[i] in s
    ensures |r| <= |s|
  {
    if s == [] then []
    else StripNul(s[..|s| - 1]) + (if s[|s| - 1] == '\0' then [] else [s[|s| - 1]])
  }

  /** The cleaning of SendPacketToTarget: decode, drop NULs, re-encode. */
  function Clean(packet: seq<byte>): seq<byte>
  {
    var text := StripNul(DecodeText(packet));
    assert IsByteText(text) by {
      forall i | 0 <= i < |text| ensures text[i] as int < 256 {
        assert text[i] in DecodeText(packet);
      }
    }
    EncodeText(text)
  }

  /** Reference definition: the bytes of `b` that are not zero, in their order. */
  function RemoveZeros(b: seq<byte>): seq<byte>
  {
    if b == [] then []
    else RemoveZeros(b[..|b| - 1]) + (if b[|b| - 1] == 0 then [] else [b[|b| - 1]])
  }

  lemma {:induction false} RemoveZerosAppend(a: seq<byte>, b: seq<byte>)
    ensures RemoveZeros(a + b) == RemoveZeros(a) + RemoveZeros(b)
    decreases |b|
  {
    if b == [] {
      assert a + b == a;
    } else {
      var b' := b[..|b| - 1];
      assert (a + b)[..|a + b| - 1] == a + b';
      RemoveZerosAppend(a, b');
    }
  }

  /** A chunk with no zero byte is forwarded unchanged. */
  lemma {:induction false} RemoveZerosKeepsNonZero(b: seq<byte>)
    requires HasNoZero(b)
    ensures RemoveZeros(b) == b
    decreases |b|
  {
    if b != [] {
      var b' := b[..|b| - 1];
      RemoveZerosKeepsNonZero(b');
      assert b' + [b[|b| - 1]] == b;
    }
  }

  /** A run of zero bytes (the untouched tail of a fresh buffer) vanishes. */
  lemma {:induction false} RemoveZerosOfZeros(b: seq<byte>)
    requires forall i :: 0 <= i < |b| ==> b[i] == 0
    ensures RemoveZeros(b) == []
    decreases |b|
  {
    if b != [] {
      RemoveZerosOfZeros(b[..|b| - 1]);
    }
  }

  lemma DecodeTextSnoc(b: seq<byte>)
    requires b != []
    ensures DecodeText(b) == DecodeText(b[..|b| - 1]) + [b[|b| - 1] as char]
  {
    var d := DecodeText(b[..|b| - 1]) + [b[|b| - 1] as char];
    assert |d| == |b|;
    forall i | 0 <= i < |b| ensures DecodeText(b)[i] == d[i] {
      if i < |b| - 1 {
        assert d[i] as int == b[i];
      }
    }
  }

  lemma EncodeTextAppend(s: string, t: string)
    requires IsByteText(s) && IsByteText(t)
    ensures IsByteText(s + t)
    ensures EncodeText(s + t) == EncodeText(s) + EncodeText(t)
  {
    assert IsByteText(s + t) by {
      forall i | 0 <= i < |s + t| ensures (s + t)[i] as int < 256 {
        if i >= |s| {
          assert (s + t)[i] == t[i - |s|];
        }
      }
    }
    var e := EncodeText(s) + EncodeText(t);
    forall i | 0 <= i < |s + t| ensures EncodeText(s + t)[i] == e[i] {
      if i >= |s| {
        assert (s + t)[i] == t[i - |s|];
      }
    }
  }

  /**
   * On ASCII input the decode/strip/encode round trip removes exactly the zero
   * bytes and keeps every other byte in its order.
   */
  lemma {:induction false} CleanIsRemoveZeros(b: seq<byte>)
    requires IsAscii(b)
    ensures Clean(b) == RemoveZeros(b)
    decreases |b|
  {
    if b != [] {
      var b' := b[..|b| - 1];
      var x := b[|b| - 1];
      assert IsAscii(b') by {
        forall i | 0 <= i < |b'| ensures b'[i] < 0x80 {
          assert b'[i] == b[i];
        }
      }
      CleanIsRemoveZeros(b');
      DecodeTextSnoc(b);
      var d := DecodeText(b');
      assert DecodeText(b)[..|b| - 1] == d;
      assert StripNul(DecodeText(b)) == StripNul(d) + (if x == 0 then [] else [x as char]);
      var s := StripNul(d);
      var t: string := if x == 0 then [] else [x as char];
      assert IsByteText(s) by {
        forall i | 0 <= i < |s| ensures s[i] as int < 256 {
          assert s[i] in d;
        }
      }
      EncodeTextAppend(s, t);
      if x != 0 {
        assert EncodeText(t) == [x];
      }
    }
  }

  /** Whatever the input, no cleaned packet holds a zero byte. */
  lemma CleanHasNoZero(b: seq<byte>)
    ensures HasNoZero(Clean(b))
  {
    var text := StripNul(DecodeText(b));
    forall i | 0 <= i < |Clean(b)| ensures Clean(b)[i] != 0 {
      assert Clean(b)[i] == text[i] as int;
      assert text[i] != '\0';
    }
  }

  /** The documented NUL-stripping case: [0x41, 0x00, 0x42] goes out as [0x41, 0x42]. */
  lemma CleanStripsNul()
    ensures Clean([0x41, 0x00, 0x42]) == [0x41, 0x42]
  {
    CleanIsRemoveZeros([0x41, 0x00, 0x42]);
    assert [0x41, 0x00, 0x42][..2] == [0x41, 0x00];
    assert [0x41, 0x00][..1] == [0x41];
  }

  // ---------------------------------------------------------------------
  // The byte pump (DoProxyingPacket) as a function of its read outcomes
  // ---------------------------------------------------------------------

  /**
   * One outcome of `ReadAsync` on the source socket: `Received` bytes (then
   * the outcome of forwarding them), a zero-length read, or an exception.
   */
  datatype PumpEvent = Received(chunk: seq<byte>, sendOk: bool) | PeerClosed | ReadFault

  /** A read never returns more than the buffer holds, and `Received` is never empty. */
  predicate ChunksFit(events: seq<PumpEvent>)
  {
    forall i :: 0 <= i < |events| && events[i].Received? ==> 0 < |events[i].chunk| <= PacketBufferSize
  }

  function ZeroBuffer(): (b: seq<byte>)
    ensures |b| == PacketBufferSize
  {
    seq(PacketBufferSize, _ => 0)
  }

  /** The buffer after a read of `chunk`: its front overwritten, the rest left as it was. */
  function Fill(buffer: seq<byte>, chunk: seq<byte>): (r: seq<byte>)
    requires |chunk| <= |buffer|
    ensures |r| == |buffer|
  {
    chunk + buffer[|chunk|..]
  }

  /** What a pump run produces: packets the destination accepted, log lines, reads consumed. */
  datatype PumpTrace = PumpTrace(delivered: seq<seq<byte>>, logged: seq<LogEntry>, consumed: nat)

  /**
   * The pump over `events`, starting with `buffer`. Every received chunk is
   * logged (the whole buffer decoded) and `Clean` of the WHOLE buffer is sent;
   * a failed send or a zero-length read only ends the inner read loop, after
   * which the outer loop reads again; an exception ends the pump.
   */
  function Pump(buffer: seq<byte>, events: seq<PumpEvent>, fromClient: bool, category: LogCategory): PumpTrace
    requires |buffer| == PacketBufferSize && ChunksFit(events)
    decreases |events|
  {
    if events == [] then PumpTrace([], [], 0)
    else
      assert ChunksFit(events[1..]) by {
        forall i | 0 <= i < |events[1..]| && events[1..][i].Received?
          ensures 0 < |events[1..][i].chunk| <= PacketBufferSize
        {
          assert events[1..][i] == events[i + 1];
        }
      }
      match events[0]
      case ReadFault => PumpTrace([], [LogEntry(PumpFailed(fromClient), category)], 1)
      case PeerClosed =>
        var rest := Pump(buffer, events[1..], fromClient, category);
        rest.(consumed := rest.consumed + 1)
      case Received(chunk, sendOk) =>
        var filled := Fill(buffer, chunk);
        var rest := Pump(filled, events[1..], fromClient, category);
        PumpTrace((if sendOk then [Clean(filled)] else []) + rest.delivered,
                  [LogEntry(PacketReceived(fromClient, DecodeText(filled)), category)] + rest.logged,
                  rest.consumed + 1)
  }

  /** Reference definition: the chunks whose send succeeded, up to the first read exception. */
  function SentChunks(events: seq<PumpEvent>): seq<seq<byte>>
  {
    if events == [] then []
    else match events[0]
      case ReadFault => []
      case PeerClosed => SentChunks(events[1..])
      case Received(chunk, sendOk) => (if sendOk then [chunk] else []) + SentChunks(events[1..])
  }

  /** Every received chunk is ASCII without a zero byte. */
  predicate PlainTraffic(events: seq<PumpEvent>)
  {
    forall i :: 0 <= i < |events| && events[i].Received? ==> IsAscii(events[i].chunk) && HasNoZero(events[i].chunk)
  }

  /** Each read is at least `n` long and at least as long as every earlier read. */
  predicate ReadsNeverShrink(events: seq<PumpEvent>, n: nat)
  {
    && (forall i :: 0 <= i < |events| && events[i].Received? ==> n <= |events[i].chunk|)
    && (forall i, j :: 0 <= i < j < |events| && events[i].Received? && events[j].Received? ==>
          |events[i].chunk| <= |events[j].chunk|)
  }

  lemma CleanOfFilled(chunk: seq<byte>, rest: seq<byte>)
    requires IsAscii(chunk) && HasNoZero(chunk)
    requires forall i :: 0 <= i < |rest| ==> rest[i] == 0
    ensures Clean(chunk + rest) == chunk
  {
    assert IsAscii(chunk + rest) by {
      forall i | 0 <= i < |chunk + rest| ensures (chunk + rest)[i] < 0x80 {
        if i >= |chunk| {
          assert (chunk + rest)[i] == rest[i - |chunk|];
        }
      }
    }
    CleanIsRemoveZeros(chunk + rest);
    RemoveZerosAppend(chunk, rest);
    RemoveZerosKeepsNonZero(chunk);
    RemoveZerosOfZeros(rest);
  }

  /**
   * Relay fidelity: when the buffer holds zeros beyond position `n` and reads
   * never get shorter, each forwarded packet is exactly the chunk just read,
   * in read order.
   */
  lemma {:induction false} PumpForwardsChunks(buffer: seq<byte>, n: nat, events: seq<PumpEvent>, fromClient: bool, category: LogCategory)
    requires |buffer| == PacketBufferSize && ChunksFit(events)
    requires PlainTraffic(events) && ReadsNeverShrink(events, n)
    requires forall i :: n <= i < |buffer| ==> buffer[i] == 0
    ensures Pump(buffer, events, fromClient, category).delivered == SentChunks(events)
    decreases |events|
  {
    if events != [] {
      var tail := events[1..];
      assert forall i :: 0 <= i < |tail| ==> tail[i] == events[i + 1];
      assert ChunksFit(tail);
      assert PlainTraffic(tail);
      match events[0]
      case ReadFault =>
      case PeerClosed =>
        assert ReadsNeverShrink(tail, n);
        PumpForwardsChunks(buffer, n, tail, fromClient, category);
      case Received(chunk, sendOk) =>
        var filled := Fill(buffer, chunk);
        assert ReadsNeverShrink(tail, |chunk|) by {
          forall i | 0 <= i < |tail| && tail[i].Received? ensures |chunk| <= |tail[i].chunk| {
            assert events[0].Received? && events[i + 1].Received?;
          }
        }
        assert forall i :: |chunk| <= i < |filled| ==> filled[i] == 0;
        PumpForwardsChunks(filled, |chunk|, tail, fromClient, category);
        if sendOk {
          assert IsAscii(events[0].chunk) && HasNoZero(events[0].chunk);
          CleanOfFilled(chunk, buffer[|chunk|..]);
        }
    }
  }

  /** From a fresh buffer, plain traffic whose reads never shrink is relayed byte for byte. */
  lemma PumpRelaysInOrder(events: seq<PumpEvent>, fromClient: bool, category: LogCategory)
    requires ChunksFit(events) && PlainTraffic(events) && ReadsNeverShrink(events, 0)
    ensures Pump(ZeroBuffer(), events, fromClient, category).delivered == SentChunks(events)
  {
    PumpForwardsChunks(ZeroBuffer(), 0, events, fromClient, category);
  }

  /**
   * Because the whole buffer is cleaned and sent, a read shorter than the one
   * before it is forwarded together with the stale tail of the earlier read.
   */
  lemma PumpResendsStaleBytes(first: seq<byte>, second: seq<byte>, fromClient: bool, category: LogCategory)
    requires 0 < |second| < |first| <= PacketBufferSize
    requires IsAscii(first) && HasNoZero(first) && IsAscii(second) && HasNoZero(second)
    ensures Pump(ZeroBuffer(), [Received(first, true), Received(second, true)], fromClient, category).delivered
            == [first, second + first[|second|..]]
    ensures Pump(ZeroBuffer(), [Received(first, true), Received(second, true)], fromClient, category).delivered[1] != second
  {
    var events := [Received(first, true), Received(second, true)];
    var b1 := Fill(ZeroBuffer(), first);
    var b2 := Fill(b1, second);
    CleanOfFilled(first, ZeroBuffer()[|first|..]);
    assert b2 == (second + first[|second|..]) + ZeroBuffer()[|first|..];
    var stale := second + first[|second|..];
    assert HasNoZero(stale) && IsAscii(stale) by {
      forall i | 0 <= i < |stale| ensures stale[i] != 0 && stale[i] < 0x80 {
        if i >= |second| {
          assert stale[i] == first[i];
        }
      }
    }
    CleanOfFilled(stale, ZeroBuffer()[|first|..]);
    assert events[1..] == [Received(second, true)];
    assert events[1..][1..] == [];
    var last := Pump(b2, [], fromClient, category);
    var second' := Pump(b1, [Received(second, true)], fromClient, category);
    assert second'.delivered == [Clean(b2)] + last.delivered;
    assert Pump(ZeroBuffer(), events, fromClient, category).delivered == [Clean(b1)] + second'.delivered;
  }

  // ---------------------------------------------------------------------
  // Session state and its transitions
  // ---------------------------------------------------------------------

  /** The seed-node socket: created undialled, connected by a successful dial, closed once. */
  datatype SeedLink = NotDialled | Connected | Closed

  /** The mutable part of a session, as one value. */
  datatype SessionState = SessionState(
    alive: bool,               // ProxyClientStatus
    target: Option<string>,    // SeedNodeHostTarget
    clientClosed: bool,        // the accepted socket has been closed
    seedLink: SeedLink,        // the outbound socket
    cancelled: bool,           // the session's own cancellation source has fired
    relayStarted: bool)        // the two pumps and the monitor have been started
  {
    /** The status flag and the three resources move together. */
    predicate Valid()
    {
      && (alive <==> !clientClosed)
      && (alive <==> seedLink != Closed)
      && (alive <==> !cancelled)
      && (relayStarted ==> seedLink != NotDialled)
    }
  }

  /** What a session was constructed with and never changes. */
  datatype SessionConfig = SessionConfig(clientIp: string, port: int, clientCategory: LogCategory, seedCategory: LogCategory)
  {
    function CategoryFor(fromClient: bool): LogCategory
    {
      if fromClient then clientCategory else seedCategory
    }
  }

  /** A session right after construction: alive before any dial has happened. */
  function InitialSession(): (s: SessionState)
    ensures s.Valid() && s.alive && s.seedLink == NotDialled && !s.relayStarted
  {
    SessionState(true, None, false, NotDialled, false, false)
  }

  datatype Step = Step(state: SessionState, logged: seq<LogEntry>)

  /**
   * CloseProxyClient: when alive, one "dead" line to the side's category, then
   * status false, both sockets closed and the token cancelled; otherwise nothing.
   */
  function CloseStep(s: SessionState, cfg: SessionConfig, fromClient: bool): (r: Step)
    ensures !r.state.alive && r.state.target == s.target && r.state.relayStarted == s.relayStarted
    ensures s.Valid() ==> r.state.Valid()
    ensures s.alive ==> r.state.clientClosed && r.state.seedLink == Closed && r.state.cancelled
    ensures s.alive ==> r.logged == [LogEntry(SessionDead(cfg.clientIp, cfg.port), cfg.CategoryFor(fromClient))]
    ensures !s.alive ==> r.state == s && r.logged == []
  {
    if s.alive then
      Step(s.(alive := false, clientClosed := true, seedLink := Closed, cancelled := true),
           [LogEntry(SessionDead(cfg.clientIp, cfg.port), cfg.CategoryFor(fromClient))])
    else
      Step(s, [])
  }

  /** Any number of close calls in a row, each with its own `fromClient`. */
  function CloseRepeatedly(s: SessionState, cfg: SessionConfig, calls: seq<bool>): Step
    decreases |calls|
  {
    if calls == [] then Step(s, [])
    else
      var first := CloseStep(s, cfg, calls[0]);
      var rest := CloseRepeatedly(first.state, cfg, calls[1..]);
      Step(rest.state, first.logged + rest.logged)
  }

  /**
   * Close happens at most once: however many times (and from whichever side)
   * a valid session is closed, the state is that of the first close and one
   * line is logged if it was alive, none otherwise.
   */
  lemma {:induction false} CloseIsIdempotent(s: SessionState, cfg: SessionConfig, calls: seq<bool>)
    requires s.Valid() && calls != []
    ensures CloseRepeatedly(s, cfg, calls).state == CloseStep(s, cfg, calls[0]).state
    ensures CloseRepeatedly(s, cfg, calls).logged == CloseStep(s, cfg, calls[0]).logged
    ensures |CloseRepeatedly(s, cfg, calls).logged| == if s.alive then 1 else 0
    decreases |calls|
  {
    var first := CloseStep(s, cfg, calls[0]);
    if |calls| > 1 {
      CloseIsIdempotent(first.state, cfg, calls[1..]);
      assert calls[1..][0] == calls[1];
    }
  }

  /** A session that is no longer alive never becomes alive again through close. */
  lemma {:induction false} ClosedStaysClosed(s: SessionState, cfg: SessionConfig, calls: seq<bool>)
    requires !s.alive
    ensures !CloseRepeatedly(s, cfg, calls).state.alive
    decreases |calls|
  {
    if calls != [] {
      ClosedStaysClosed(CloseStep(s, cfg, calls[0]).state, cfg, calls[1..]);
    }
  }

  // ---------------------------------------------------------------------
  // Drawing a seed node and opening the link
  // ---------------------------------------------------------------------

  /** A host the redraw loop accepts: not the server's own IP and not empty. */
  predicate Selectable(host: string, serverIp: string)
  {
    host != serverIp && host != ""
  }

  /** Every draw of `GetRandomBetween(0, count - 1)` lies in that range. */
  predicate DrawsInRange(draws: seq<nat>, count: nat)
  {
    forall k :: 0 <= k < |draws| ==> draws[k] < count
  }

  predicate SomeDrawSelectable(hosts: seq<string>, serverIp: string, draws: seq<nat>)
  {
    exists k :: 0 <= k < |draws| && draws[k] < |hosts| && Selectable(hosts[draws[k]], serverIp)
  }

  /**
   * The draws admitted by the model: an empty host list fails on the first
   * index; otherwise the supplied draws reach a selectable host (with no such
   * draw the source keeps drawing forever).
   */
  predicate DrawsAdmissible(hosts: seq<string>, serverIp: string, draws: seq<nat>)
  {
    |hosts| == 0 || (DrawsInRange(draws, |hosts|) && SomeDrawSelectable(hosts, serverIp, draws))
  }

  lemma SomeDrawAfterFirst(hosts: seq<string>, serverIp: string, draws: seq<nat>)
    requires DrawsInRange(draws, |hosts|) && SomeDrawSelectable(hosts, serverIp, draws)
    requires !Selectable(hosts[draws[0]], serverIp)
    ensures DrawsInRange(draws[1..], |hosts|) && SomeDrawSelectable(hosts, serverIp, draws[1..])
  {
    var k :| 0 <= k < |draws| && draws[k] < |hosts| && Selectable(hosts[draws[k]], serverIp);
    assert k > 0 && draws[1..][k - 1] == draws[k];
  }

  /** The index of the draw the redraw loop stops at: the first selectable one. */
  function FirstSelectable(hosts: seq<string>, serverIp: string, draws: seq<nat>): (k: nat)
    requires DrawsInRange(draws, |hosts|) && SomeDrawSelectable(hosts, serverIp, draws)
    ensures k < |draws| && Selectable(hosts[draws[k]], serverIp)
    ensures forall j :: 0 <= j < k ==> !Selectable(hosts[draws[j]], serverIp)
    decreases |draws|
  {
    if Selectable(hosts[draws[0]], serverIp) then 0
    else
      SomeDrawAfterFirst(hosts, serverIp, draws);
      var k := FirstSelectable(hosts, serverIp, draws[1..]);
      assert forall j :: 1 <= j <= k ==> draws[j] == draws[1..][j - 1];
      k + 1
  }

  /** The seed node the session ends up targeting. */
  function SelectedHost(hosts: seq<string>, serverIp: string, draws: seq<nat>): string
    requires DrawsInRange(draws, |hosts|) && SomeDrawSelectable(hosts, serverIp, draws)
  {
    hosts[draws[FirstSelectable(hosts, serverIp, draws)]]
  }

  /** Self is never selected: the target is a listed, non-empty host other than the server. */
  lemma SelectedHostIsValid(hosts: seq<string>, serverIp: string, draws: seq<nat>)
    requires DrawsInRange(draws, |hosts|) && SomeDrawSelectable(hosts, serverIp, draws)
    ensures SelectedHost(hosts, serverIp, draws) in hosts
    ensures SelectedHost(hosts, serverIp, draws) != serverIp
    ensures SelectedHost(hosts, serverIp, draws) != ""
  {
  }

  datatype LinkResult = LinkResult(state: SessionState, logged: seq<LogEntry>, ok: bool)

  /**
   * OpenSeedNodeProxyLink: draw until selectable, record the target, dial.
   * The dial succeeds only when the outcome says so and the outbound socket
   * is still the undialled one.
   */
  function OpenLink(s: SessionState, cfg: SessionConfig, hosts: seq<string>, serverIp: string, draws: seq<nat>, dialOk: bool): (r: LinkResult)
    requires DrawsAdmissible(hosts, serverIp, draws)
  {
    if |hosts| == 0 then
      LinkResult(s, [LogEntry(SeedConnectFailed(s.target), SERVER)], false)
    else
      var target := SelectedHost(hosts, serverIp, draws);
      var s' := s.(target := Some(target));
      if dialOk && s.seedLink == NotDialled then
        LinkResult(s'.(seedLink := Connected), [LogEntry(SeedConnected(target, cfg.port, cfg.clientIp), SERVER)], true)
      else
        LinkResult(s', [LogEntry(SeedConnectFailed(Some(target)), SERVER)], false)
  }

  /**
   * HandleProxyClient: on a successful link the relay tasks are started and
   * the status is left as it was; otherwise the session is closed.
   */
  function HandleStep(s: SessionState, cfg: SessionConfig, hosts: seq<string>, serverIp: string, draws: seq<nat>, dialOk: bool): (r: LinkResult)
    requires DrawsAdmissible(hosts, serverIp, draws)
    ensures r.ok <==> |hosts| > 0 && dialOk && s.seedLink == NotDialled
    ensures r.ok ==> r.state == s.(target := r.state.target, seedLink := Connected, relayStarted := true)
    ensures !r.ok ==> !r.state.alive
    ensures !r.ok && (s.alive || s.Valid()) ==> r.state.clientClosed && r.state.seedLink == Closed && r.state.cancelled
    ensures |hosts| > 0 ==> r.state.target == Some(SelectedHost(hosts, serverIp, draws))
    ensures |hosts| == 0 ==> r.state.target == s.target
    ensures s.Valid() ==> r.state.Valid()
    ensures |r.logged| == (if !r.ok && s.alive then 2 else 1)
    ensures r.ok ==> r.logged[0] == LogEntry(SeedConnected(SelectedHost(hosts, serverIp, draws), cfg.port, cfg.clientIp), SERVER)
    ensures !r.ok ==> r.logged[0] == LogEntry(SeedConnectFailed(r.state.target), SERVER)
    ensures !r.ok && s.alive ==> r.logged[1] == LogEntry(SessionDead(cfg.clientIp, cfg.port), cfg.seedCategory)
  {
    var link := OpenLink(s, cfg, hosts, serverIp, draws, dialOk);
    if link.ok then
      LinkResult(link.state.(relayStarted := true), link.logged, true)
    else
      var closed := CloseStep(link.state, cfg, false);
      LinkResult(closed.state, link.logged + closed.logged, false)
  }

  // ---------------------------------------------------------------------
  // The connectivity monitor (CheckConnectivity) as a function of its probes
  // ---------------------------------------------------------------------

  /** One poll: (client socket connected, seed socket connected). */
  type Probe = (bool, bool)

  /** The index of the first probe in which a socket reports not connected. */
  function FirstProbeFailure(probes: seq<Probe>): (r: Option<nat>)
    ensures r.Some? ==> r.value < |probes| && !(probes[r.value].0 && probes[r.value].1)
    ensures r.Some? ==> forall j :: 0 <= j < r.value ==> probes[j].0 && probes[j].1
    ensures r.None? ==> forall j :: 0 <= j < |probes| ==> probes[j].0 && probes[j].1
    decreases |probes|
  {
    if probes == [] then None
    else if !(probes[0].0 && probes[0].1) then Some(0)
    else
      var rest := FirstProbeFailure(probes[1..]);
      assert forall j :: 1 <= j < |probes| ==> probes[j] == probes[1..][j - 1];
      if rest.Some? then Some(rest.value + 1) else None
  }

  lemma FirstProbeFailureAt(probes: seq<Probe>, k: nat)
    requires k < |probes| && !(probes[k].0 && probes[k].1)
    requires forall j :: 0 <= j < k ==> probes[j].0 && probes[j].1
    ensures FirstProbeFailure(probes) == Some(k)
  {
  }

  lemma NoProbeFailure(probes: seq<Probe>)
    requires forall j :: 0 <= j < |probes| ==> probes[j].0 && probes[j].1
    ensures FirstProbeFailure(probes) == None
  {
  }

  /**
   * The monitor's end: `None` while every supplied probe saw both sockets
   * connected (it is still polling); otherwise the probes it used and the
   * argument of its `CloseProxyClient` call, which is the client socket's last
   * probe (false when the loop never ran).
   */
  function MonitorOutcome(alive: bool, probes: seq<Probe>): (r: Option<(nat, bool)>)
    ensures !alive ==> r == Some((0, false))
    ensures alive && r.Some? ==>
      var n := r.value.0;
      && 0 < n <= |probes|
      && !(probes[n - 1].0 && probes[n - 1].1)
      && r.value.1 == probes[n - 1].0
      && (forall j :: 0 <= j < n - 1 ==> probes[j].0 && probes[j].1)
    ensures alive && r.None? ==> forall j :: 0 <= j < |probes| ==> probes[j].0 && probes[j].1
  {
    if !alive then Some((0, false))
    else
      match FirstProbeFailure(probes)
      case None => None
      case Some(k) => Some((k + 1, probes[k].0))
  }

  /**
   * The log category of the monitor's close: it passes the client's
   * "connected" probe as `fromClient`, so a dead client socket is reported
   * under the seed-node category and a dead seed socket under the client's.
   */
  lemma MonitorBlamesOtherSide(probes: seq<Probe>)
    requires |probes| > 0 && !probes[0].0
    ensures MonitorOutcome(true, probes) == Some((1, false))
  {
  }

  // ---------------------------------------------------------------------
  // The session object
  // ---------------------------------------------------------------------

  class ProxyClient {
    var status: bool
    var seedNodeHostTarget: Option<string>
    var clientClosed: bool
    var seedLink: SeedLink
    var tokenCancelled: bool
    var relayStarted: bool

    const clientIp: string
    const seedNodePort: int
    const clientCategory: LogCategory
    const seedCategory: LogCategory
    const logger: Logger
    const setting: ProxySetting

    function State(): SessionState
      reads this
    {
      SessionState(status, seedNodeHostTarget, clientClosed, seedLink, tokenCancelled, relayStarted)
    }

    function Config(): SessionConfig
    {
      SessionConfig(clientIp, seedNodePort, clientCategory, seedCategory)
    }

    ghost predicate Valid()
      reads this
    {
      State().Valid()
    }

    /** The session for an accepted socket whose remote address is `clientIp`. */
    constructor (clientIp: string, logger: Logger, setting: ProxySetting, seedNodePort: int,
                 clientCategory: LogCategory, seedCategory: LogCategory)
      ensures Valid() && State() == InitialSession()
      ensures status
      ensures this.clientIp == clientIp && this.logger == logger && this.setting == setting
      ensures this.seedNodePort == seedNodePort
      ensures this.clientCategory == clientCategory && this.seedCategory == seedCategory
    {
      status := true;
      seedNodeHostTarget := None;
      clientClosed := false;
      seedLink := NotDialled;
      tokenCancelled := false;
      relayStarted := false;
      this.clientIp := clientIp;
      this.logger := logger;
      this.setting := setting;
      this.seedNodePort := seedNodePort;
      this.clientCategory := clientCategory;
      this.seedCategory := seedCategory;
    }

    /** Idempotent teardown guarded by the status flag. */
    method CloseProxyClient(fromClient: bool)
      requires Valid()
      modifies this, logger
      ensures Valid()
      ensures State() == CloseStep(old(State()), Config(), fromClient).state
      ensures logger.entries == old(logger.entries) + CloseStep(old(State()), Config(), fromClient).logged
      ensures !old(status) ==> unchanged(this) && logger.entries == old(logger.entries)
    {
      if status {
        logger.WriteLine(SessionDead(clientIp, seedNodePort), if fromClient then clientCategory else seedCategory);
        status := false;
        clientClosed := true;
        seedLink := Closed;
        tokenCancelled := true;
      }
    }

    /** Draw a seed node until one is selectable, record it and dial it. */
    method OpenSeedNodeProxyLink(draws: seq<nat>, dialOk: bool) returns (ok: bool)
      requires Valid()
      requires DrawsAdmissible(setting.seedNodeHostList, setting.serverIp, draws)
      modifies this, logger
      ensures Valid()
      ensures var r := OpenLink(old(State()), Config(), setting.seedNodeHostList, setting.serverIp, draws, dialOk);
        State() == r.state && ok == r.ok && logger.entries == old(logger.entries) + r.logged
    {
      var hosts := setting.seedNodeHostList;
      var serverIp := setting.serverIp;
      if |hosts| == 0 {
        // indexing the empty list throws before a target is recorded
        logger.WriteLine(SeedConnectFailed(seedNodeHostTarget), SERVER);
        return false;
      }
      ghost var stop := FirstSelectable(hosts, serverIp, draws);
      var i := 0;
      var seedNodeIp := hosts[draws[0]];
      while seedNodeIp == serverIp || seedNodeIp == ""
        invariant 0 <= i <= stop && seedNodeIp == hosts[draws[i]]
        decreases stop - i
      {
        i := i + 1;
        seedNodeIp := hosts[draws[i]];
      }
      seedNodeHostTarget := Some(seedNodeIp);
      if dialOk && seedLink == NotDialled {
        seedLink := Connected;
        logger.WriteLine(SeedConnected(seedNodeIp, seedNodePort, clientIp), SERVER);
        ok := true;
      } else {
        logger.WriteLine(SeedConnectFailed(Some(seedNodeIp)), SERVER);
        ok := false;
      }
    }

    /** Open the link; on success start the relay tasks, otherwise close the session. */
    method HandleProxyClient(draws: seq<nat>, dialOk: bool) returns (ok: bool)
      requires Valid()
      requires DrawsAdmissible(setting.seedNodeHostList, setting.serverIp, draws)
      modifies this, logger
      ensures Valid()
      ensures var r := HandleStep(old(State()), Config(), setting.seedNodeHostList, setting.serverIp, draws, dialOk);
        State() == r.state && ok == r.ok && logger.entries == old(logger.entries) + r.logged
      ensures ok ==> status == old(status)
      ensures !ok ==> !status
    {
      ghost var s0 := State();
      ghost var log0 := logger.entries;
      ok := OpenSeedNodeProxyLink(draws, dialOk);
      ghost var link := OpenLink(s0, Config(), setting.seedNodeHostList, setting.serverIp, draws, dialOk);
      if ok {
        // ListenRequestClient, ListenRequestSeedNode and CheckConnectivity are started here
        relayStarted := true;
        return;
      }
      CloseProxyClient(false);
      assert logger.entries == log0 + link.logged + CloseStep(link.state, Config(), false).logged;
    }

    /**
     * The connectivity monitor: poll both sockets until the status is false or
     * a probe reports a socket not connected, then close with the client's
     * last probe as `fromClient`. If the probes run out first the monitor is
     * still polling and nothing is closed.
     */
    method CheckConnectivity(probes: seq<Probe>) returns (probesUsed: nat, stillPolling: bool)
      requires Valid()
      modifies this, logger
      ensures Valid()
      ensures var out := MonitorOutcome(old(status), probes);
        && (out.None? ==> stillPolling && probesUsed == |probes|
                           && State() == old(State()) && logger.entries == old(logger.entries))
        && (out.Some? ==> !stillPolling && probesUsed == out.value.0
                           && State() == CloseStep(old(State()), Config(), out.value.1).state
                           && logger.entries == old(logger.entries) + CloseStep(old(State()), Config(), out.value.1).logged)
    {
      var clientConnected := false;   // named clientIsDead in the source
      var seedConnected := false;     // named seedIsDead in the source
      var i: nat := 0;
      var probeFailed := false;
      stillPolling := false;
      while status && !probeFailed && !stillPolling
        invariant 0 <= i <= |probes|
        invariant status == old(status) && State() == old(State()) && logger.entries == old(logger.entries)
        invariant clientConnected == (if i == 0 then false else probes[i - 1].0)
        invariant forall j :: 0 <= j < (if probeFailed then i - 1 else i) ==> probes[j].0 && probes[j].1
        invariant probeFailed ==> 0 < i && !(probes[i - 1].0 && probes[i - 1].1)
        invariant stillPolling ==> i == |probes| && !probeFailed
        invariant !old(status) ==> i == 0 && !probeFailed && !stillPolling
        decreases |probes| - i, !stillPolling
      {
        if i == |probes| {
          stillPolling := true;
        } else {
          clientConnected := probes[i].0;
          seedConnected := probes[i].1;
          i := i + 1;
          if !clientConnected || !seedConnected {
            probeFailed := true;
          }
          // Task.Delay(1000) between polls
        }
      }
      probesUsed := i;
      if probeFailed {
        FirstProbeFailureAt(probes, i - 1);
        assert MonitorOutcome(old(status), probes) == Some((i, clientConnected));
      } else if stillPolling {
        NoProbeFailure(probes);
        assert MonitorOutcome(old(status), probes) == None;
      } else {
        assert !status;
        assert MonitorOutcome(old(status), probes) == Some((i, clientConnected));
      }
      if !stillPolling {
        CloseProxyClient(clientConnected);
      }
    }

    /**
     * One byte pump (source socket to destination socket). Returns the packets
     * the destination accepted and the number of read outcomes consumed.
     */
    method DoProxyingPacket(fromClient: bool, events: seq<PumpEvent>) returns (delivered: seq<seq<byte>>, consumed: nat)
      requires ChunksFit(events)
      modifies logger
      ensures !status ==> (delivered == [] && consumed == 0
        && logger.entries == old(logger.entries) + [LogEntry(PumpFailed(fromClient), Config().CategoryFor(fromClient))])
      ensures status ==> (var t := Pump(ZeroBuffer(), events, fromClient, Config().CategoryFor(fromClient));
        delivered == t.delivered && consumed == t.consumed && logger.entries == old(logger.entries) + t.logged)
    {
      var category := if fromClient then clientCategory else seedCategory;
      if !status {
        // the closed source socket cannot back a NetworkStream: the catch logs and the pump ends
        logger.WriteLine(PumpFailed(fromClient), category);
        return [], 0;
      }
      ghost var whole := Pump(ZeroBuffer(), events, fromClient, category);
      ghost var logged: seq<LogEntry> := [];
      var packetData := new byte[PacketBufferSize](_ => 0);
      assert packetData[..] == ZeroBuffer();
      assert events[0..] == events;
      delivered := [];
      var i: nat := 0;
      var faulted := false;
      while status && i < |events| && !faulted
        invariant i <= |events| && packetData.Length == PacketBufferSize
        invariant logger.entries == old(logger.entries) + logged
        invariant !faulted ==> PumpRest(whole, delivered, logged, i, packetData[..], events, fromClient, category)
        invariant faulted ==> whole == PumpTrace(delivered, logged, i)
        decreases |events| - i
      {
        i, faulted, delivered, logged := ReadUntilPause(fromClient, events, i, packetData, whole, delivered, logged, old(logger.entries));
      }
      if !faulted {
        PumpRestDone(whole, delivered, logged, i, packetData[..], events, fromClient, category);
      }
      consumed := i;
    }

    /**
     * The inner read loop of a pump: read, log and forward until a zero-length
     * read, a failed send, an exception or the end of the outcomes.
     */
    method ReadUntilPause(fromClient: bool, events: seq<PumpEvent>, start: nat, packetData: array<byte>,
                          ghost whole: PumpTrace, delivered0: seq<seq<byte>>, ghost logged0: seq<LogEntry>,
                          ghost base: seq<LogEntry>)
      returns (i: nat, faulted: bool, delivered: seq<seq<byte>>, ghost logged: seq<LogEntry>)
      requires ChunksFit(events) && start < |events| && packetData.Length == PacketBufferSize
      requires PumpRest(whole, delivered0, logged0, start, packetData[..], events, fromClient, Config().CategoryFor(fromClient))
      requires logger.entries == base + logged0
      modifies logger, packetData
      ensures start < i <= |events|
      ensures logger.entries == base + logged
      ensures !faulted ==> PumpRest(whole, delivered, logged, i, packetData[..], events, fromClient, Config().CategoryFor(fromClient))
      ensures faulted ==> whole == PumpTrace(delivered, logged, i)
    {
      var category := if fromClient then clientCategory else seedCategory;
      i, faulted, delivered, logged := start, false, delivered0, logged0;
      var readMore := true;
      while readMore && i < |events| && !faulted
        invariant start <= i <= |events|
        invariant i == start ==> readMore && !faulted
        invariant logger.entries == base + logged
        invariant !faulted ==> PumpRest(whole, delivered, logged, i, packetData[..], events, fromClient, category)
        invariant faulted ==> whole == PumpTrace(delivered, logged, i)
        decreases |events| - i
      {
        var event := events[i];
        ghost var before := packetData[..];
        match event {
        case ReadFault =>
          PumpRestFault(whole, delivered, logged, i, before, events, fromClient, category);
          logger.WriteLine(PumpFailed(fromClient), category);
          logged := logged + [LogEntry(PumpFailed(fromClient), category)];
          faulted := true;
        case PeerClosed =>
          PumpRestPeerClosed(whole, delivered, logged, i, before, events, fromClient, category);
          readMore := false;   // ReadAsync returned 0
        case Received(chunk, sendOk) =>
          PumpRestReceived(whole, delivered, logged, i, before, events, fromClient, category);
          ghost var filled := Fill(before, chunk);
          ghost var nextDelivered := delivered + (if sendOk then [Clean(filled)] else []);
          ReadInto(packetData, chunk);
          assert packetData[..] == filled;
          logger.WriteLine(PacketReceived(fromClient, DecodeText(packetData[..])), category);
          logged := logged + [LogEntry(PacketReceived(fromClient, DecodeText(filled)), category)];
          var packet := Clean(packetData[..]);   // the whole buffer, not only the bytes just read
          if sendOk {
            delivered := delivered + [packet];
          } else {
            readMore := false;   // SendPacketToTarget failed: leave the read loop
          }
          assert delivered == nextDelivered;
        }
        i := i + 1;
      }
    }
  }

  /** A read of `chunk`: its bytes overwrite the front of the buffer, the rest is left as it was. */
  method ReadInto(buffer: array<byte>, chunk: seq<byte>)
    requires |chunk| <= buffer.Length
    modifies buffer
    ensures buffer[..] == Fill(old(buffer[..]), chunk)
  {
    for j := 0 to |chunk|
      invariant forall k :: 0 <= k < j ==> buffer[k] == chunk[k]
      invariant forall k :: j <= k < buffer.Length ==> buffer[k] == old(buffer[k])
    {
      buffer[j] := chunk[j];
    }
    assert buffer[..] == Fill(old(buffer[..]), chunk);
  }

  /** The pump loop's progress: what is done plus what the rest of the events will do is the whole run. */
  ghost predicate PumpRest(whole: PumpTrace, delivered: seq<seq<byte>>, logged: seq<LogEntry>, i: nat,
                           buffer: seq<byte>, events: seq<PumpEvent>, fromClient: bool, category: LogCategory)
    requires ChunksFit(events)
  {
    && i <= |events|
    && |buffer| == PacketBufferSize
    && ChunksFit(events[i..])
    && var rest := Pump(buffer, events[i..], fromClient, category);
       whole == PumpTrace(delivered + rest.delivered, logged + rest.logged, i + rest.consumed)
  }

  lemma PumpRestReceived(whole: PumpTrace, delivered: seq<seq<byte>>, logged: seq<LogEntry>, i: nat,
                         buffer: seq<byte>, events: seq<PumpEvent>, fromClient: bool, category: LogCategory)
    requires ChunksFit(events) && PumpRest(whole, delivered, logged, i, buffer, events, fromClient, category)
    requires i < |events| && events[i].Received?
    ensures var chunk := events[i].chunk;
      && |chunk| <= |buffer|
      && var filled := Fill(buffer, chunk);
         PumpRest(whole, delivered + (if events[i].sendOk then [Clean(filled)] else []),
                  logged + [LogEntry(PacketReceived(fromClient, DecodeText(filled)), category)],
                  i + 1, filled, events, fromClient, category)
  {
    var rest := events[i..];
    assert rest[0] == events[i] && rest[1..] == events[i + 1..];
  }

  lemma PumpRestPeerClosed(whole: PumpTrace, delivered: seq<seq<byte>>, logged: seq<LogEntry>, i: nat,
                           buffer: seq<byte>, events: seq<PumpEvent>, fromClient: bool, category: LogCategory)
    requires ChunksFit(events) && PumpRest(whole, delivered, logged, i, buffer, events, fromClient, category)
    requires i < |events| && events[i].PeerClosed?
    ensures PumpRest(whole, delivered, logged, i + 1, buffer, events, fromClient, category)
  {
    var rest := events[i..];
    assert rest[0] == events[i] && rest[1..] == events[i + 1..];
  }

  lemma PumpRestFault(whole: PumpTrace, delivered: seq<seq<byte>>, logged: seq<LogEntry>, i: nat,
                      buffer: seq<byte>, events: seq<PumpEvent>, fromClient: bool, category: LogCategory)
    requires ChunksFit(events) && PumpRest(whole, delivered, logged, i, buffer, events, fromClient, category)
    requires i < |events| && events[i].ReadFault?
    ensures whole == PumpTrace(delivered, logged + [LogEntry(PumpFailed(fromClient), category)], i + 1)
  {
    var rest := events[i..];
    assert rest[0] == events[i];
  }

  lemma PumpRestDone(whole: PumpTrace, delivered: seq<seq<byte>>, logged: seq<LogEntry>, i: nat,
                     buffer: seq<byte>, events: seq<PumpEvent>, fromClient: bool, category: LogCategory)
    requires ChunksFit(events) && PumpRest(whole, delivered, logged, i, buffer, events, fromClient, category)
    requires i == |events|
    ensures whole == PumpTrace(delivered, logged, i)
  {
    assert events[i..] == [];
  }
}

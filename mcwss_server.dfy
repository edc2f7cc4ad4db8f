/** The McWss bridge server (McWssServer.cs): the session handshake each
    bridged client goes through (login token, version, session-token gated
    logout and ping, a five-second ping timeout) and the filter that turns a
    player's chat message into an inbound packet. McApiNetPeer.cs, the Mc API
    login/logout/ping/accept/deny packet classes and the Z85 text codec are not
    part of this model: a peer is seen through its connection flag, session
    token, last ping time and packet queues, and inbound packets are taken as
    decoded by a `decode` function. */
module McWss {
  import opened Wrappers
  import opened DotNet
  import opened VoiceServer

  /** `McWssVersion`. */
  const McWssVersion: Version := Version(1, 1, 0)

  const InvalidLoginTokenReason: string := "McApi.DisconnectReason.InvalidLoginToken"
  const McIncompatibleVersionReason: string := "McApi.DisconnectReason.IncompatibleVersion"

  /** The prefix of a chat message that carries a packet. */
  const ApiPrefix: string := "vc:mcwss_api"

  /** How long a connected peer may go without a ping, in milliseconds. */
  const PingTimeoutMs: int := 5000

  /** A decoded inbound packet, by what the handler reads from it. */
  datatype McApiIn =
    | LoginIn(loginToken: string, version: Version)
    | LogoutIn(sessionToken: string)
    | PingIn(sessionToken: string)
    /** Any other packet type. */
    | OtherIn
    /** Bytes whose reading throws; the exception is swallowed. */
    | Undecodable

  datatype McApiOut = AcceptOut(sessionToken: string) | DenyOut(reason: string) | PingOut(sessionToken: string)

  /** A reply goes through the peer's outbound queue, or straight to the
      websocket client (the two Deny replies). */
  datatype Reply = ToPeer(packet: McApiOut) | ToClient(packet: McApiOut)

  /** The connection state of a McApiNetPeer. */
  datatype PeerState = PeerState(connected: bool, sessionToken: string)

  predicate SameRelease(v: Version)
  {
    v.major == McWssVersion.major && v.minor == McWssVersion.minor
  }

  /** HandlePacket on a peer in state `s`: `loginToken` is Config.LoginToken
      ("" when unset) and `newToken` the token a new session would get. */
  function Handle(s: PeerState, p: McApiIn, loginToken: string, newToken: string): (PeerState, seq<Reply>)
  {
    match p
    case LoginIn(token, version) =>
      if s.connected then (s, [ToPeer(AcceptOut(s.sessionToken))])
      else if loginToken != "" && loginToken != token then (s, [ToClient(DenyOut(InvalidLoginTokenReason))])
      else if !SameRelease(version) then (s, [ToClient(DenyOut(McIncompatibleVersionReason))])
      else (PeerState(true, newToken), [ToPeer(AcceptOut(newToken))])
    case LogoutIn(token) =>
      if s.connected && token == s.sessionToken then (s.(connected := false), []) else (s, [])
    case PingIn(token) =>
      if s.connected && token == s.sessionToken then (s, [ToPeer(PingOut(token))]) else (s, [])
    case OtherIn => (s, [])
    case Undecodable => (s, [])
  }

  /** Until a peer is connected, everything but a login is ignored. */
  lemma OnlyLoginWhileDisconnected(s: PeerState, p: McApiIn, loginToken: string, newToken: string)
    requires !s.connected && !p.LoginIn?
    ensures Handle(s, p, loginToken, newToken) == (s, [])
  {
  }

  /** A login is accepted exactly when the peer is not yet connected, the
      configured token (if any) matches and the release matches; only then
      does the session token change. */
  lemma LoginAccepted(s: PeerState, token: string, version: Version, loginToken: string, newToken: string)
    ensures !s.connected && (loginToken == "" || loginToken == token) && SameRelease(version) ==>
      Handle(s, LoginIn(token, version), loginToken, newToken) == (PeerState(true, newToken), [ToPeer(AcceptOut(newToken))])
    ensures !(!s.connected && (loginToken == "" || loginToken == token) && SameRelease(version)) ==>
      Handle(s, LoginIn(token, version), loginToken, newToken).0 == s
  {
  }

  /** The login token is checked before the version. */
  lemma TokenBeforeVersion(s: PeerState, token: string, version: Version, loginToken: string, newToken: string)
    requires !s.connected && loginToken != "" && loginToken != token && !SameRelease(version)
    ensures Handle(s, LoginIn(token, version), loginToken, newToken) == (s, [ToClient(DenyOut(InvalidLoginTokenReason))])
  {
  }

  /** A second login on a connected peer re-sends the current token and
      checks nothing. */
  lemma ReLoginKeepsSession(s: PeerState, token: string, version: Version, loginToken: string, newToken: string)
    requires s.connected
    ensures Handle(s, LoginIn(token, version), loginToken, newToken) == (s, [ToPeer(AcceptOut(s.sessionToken))])
  {
  }

  /** After an accepted login, a logout carrying the granted token ends the
      session, and one carrying any other token leaves it alone. */
  lemma LoginThenLogout(s: PeerState, version: Version, loginToken: string, newToken: string, other: string, newToken2: string)
    requires !s.connected && SameRelease(version) && other != newToken
    ensures var s1 := Handle(s, LoginIn(loginToken, version), loginToken, newToken).0;
      s1 == PeerState(true, newToken)
      && Handle(s1, LogoutIn(newToken), loginToken, newToken2).0 == PeerState(false, newToken)
      && Handle(s1, LogoutIn(other), loginToken, newToken2) == (s1, [])
  {
  }

  /** The run of HandlePacket over a peer's inbound queue, each packet with
      the token a login at that point would be given. */
  function Run(s: PeerState, packets: seq<McApiIn>, loginToken: string, tokens: seq<string>): (PeerState, seq<Reply>)
    requires |tokens| == |packets|
  {
    if packets == [] then (s, [])
    else
      var n := |packets| - 1;
      var (s1, r1) := Run(s, packets[..n], loginToken, tokens[..n]);
      var (s2, r2) := Handle(s1, packets[n], loginToken, tokens[n]);
      (s2, r1 + r2)
  }

  /** Without a login among them, packets leave a disconnected peer as it is
      and draw no reply. */
  lemma {:induction false} NoSessionWithoutLogin(s: PeerState, packets: seq<McApiIn>, loginToken: string, tokens: seq<string>)
    requires !s.connected && |tokens| == |packets|
    requires forall i | 0 <= i < |packets| :: !packets[i].LoginIn?
    ensures Run(s, packets, loginToken, tokens).0 == s
    ensures Run(s, packets, loginToken, tokens).1 == []
  {
    if packets != [] {
      var n := |packets| - 1;
      NoSessionWithoutLogin(s, packets[..n], loginToken, tokens[..n]);
      OnlyLoginWhileDisconnected(s, packets[n], loginToken, tokens[n]);
    }
  }

  /** The inbound texts as read by `decode`. */
  function Decoded(texts: seq<string>, decode: string -> McApiIn): (r: seq<McApiIn>)
    ensures |r| == |texts| && forall i | 0 <= i < |texts| :: r[i] == decode(texts[i])
  {
    seq(|texts|, i requires 0 <= i < |texts| => decode(texts[i]))
  }

  /** The replies that go through the peer's queue, and those that go
      straight to the client. */
  function PeerPackets(replies: seq<Reply>): seq<McApiOut>
  {
    if replies == [] then []
    else
      var last := replies[|replies| - 1];
      PeerPackets(replies[..|replies| - 1]) + (if last.ToPeer? then [last.packet] else [])
  }

  function ClientPackets(replies: seq<Reply>): seq<McApiOut>
  {
    if replies == [] then []
    else
      var last := replies[|replies| - 1];
      ClientPackets(replies[..|replies| - 1]) + (if last.ToClient? then [last.packet] else [])
  }

  /** HandleEventPacket's filter for a PlayerMessage: forwarded only when the
      receiver is the sender and the first rawtext starts with the prefix; the
      first occurrence of the prefix, which is that prefix, is cut off. */
  function InboundText(receiver: string, sender: string, rawtexts: seq<string>): Option<string>
  {
    if receiver != sender then None
    else if rawtexts == [] then None
    else if !StartsWith(rawtexts[0], ApiPrefix) then None
    else Some(RemoveFirst(rawtexts[0], ApiPrefix))
  }

  /** What is forwarded is exactly the text after the prefix: putting the
      prefix back gives the message. */
  lemma InboundTextStripsPrefix(receiver: string, sender: string, rawtexts: seq<string>)
    ensures InboundText(receiver, sender, rawtexts).Some? <==>
      receiver == sender && |rawtexts| > 0 && StartsWith(rawtexts[0], ApiPrefix)
    ensures InboundText(receiver, sender, rawtexts).Some? ==>
      ApiPrefix + InboundText(receiver, sender, rawtexts).value == rawtexts[0]
  {
    if receiver == sender && |rawtexts| > 0 && StartsWith(rawtexts[0], ApiPrefix) {
      RemoveFirstOfPrefixed(rawtexts[0], ApiPrefix);
      assert rawtexts[0] == rawtexts[0][..|ApiPrefix|] + rawtexts[0][|ApiPrefix|..];
    }
  }

  /** A later occurrence of the prefix stays in the forwarded text. */
  lemma OnlyFirstPrefixStripped()
    ensures InboundText("p", "p", [ApiPrefix + ApiPrefix]) == Some(ApiPrefix)
  {
    RemoveFirstOfPrefixed(ApiPrefix + ApiPrefix, ApiPrefix);
    assert (ApiPrefix + ApiPrefix)[|ApiPrefix|..] == ApiPrefix;
  }

  /** The websocket client behind a peer, by its guid. */
  type ClientId = string

  /** What goes over a client's websocket: the event subscription, or a
      command request carrying a packet. */
  datatype WsMessage = SubscribeMessage | CommandRequest(packet: McApiOut)

  datatype WsSend = WsSend(client: ClientId, message: WsMessage)

  function Commands(client: ClientId, packets: seq<McApiOut>): (r: seq<WsSend>)
    ensures |r| == |packets|
    ensures forall i | 0 <= i < |packets| :: r[i] == WsSend(client, CommandRequest(packets[i]))
  {
    if packets == [] then [] else Commands(client, packets[..|packets| - 1]) + [WsSend(client, CommandRequest(packets[|packets| - 1]))]
  }

  class McApiNetPeer {
    var connected: bool
    var sessionToken: string
    /** LastPing, in milliseconds. */
    var lastPing: int
    /** Inbound packet texts, oldest first. */
    var inbound: seq<string>
    /** Outbound packets, oldest first. */
    var outbound: seq<McApiOut>

    constructor(now: int)
      ensures !connected && sessionToken == "" && lastPing == now && inbound == [] && outbound == []
    {
      connected := false;
      sessionToken := "";
      lastPing := now;
      inbound := [];
      outbound := [];
    }

    function State(): PeerState
      reads this
    {
      PeerState(connected, sessionToken)
    }
  }

  class McWssServer {
    /** Config.LoginToken, "" when unset. */
    const loginToken: string
    var peers: map<ClientId, McApiNetPeer>
    var wsSent: seq<WsSend>

    constructor(loginToken: string)
      ensures this.loginToken == loginToken && peers == map[] && wsSent == []
    {
      this.loginToken := loginToken;
      peers := map[];
      wsSent := [];
    }

    /** HandlePacket with HandleLoginPacket, HandleLogoutPacket and
        HandlePingPacket: the peer moves as Handle says; replies to the peer
        are queued on it, the denials go straight to the client. */
    method HandlePacket(p: McApiIn, client: ClientId, peer: McApiNetPeer, newToken: string)
      modifies peer`connected, peer`sessionToken, peer`outbound, this`wsSent
      ensures var (s, replies) := Handle(old(peer.State()), p, loginToken, newToken);
        peer.State() == s
        && peer.outbound == old(peer.outbound) + PeerPackets(replies)
        && wsSent == old(wsSent) + Commands(client, ClientPackets(replies))
    {
      match p {
        case LoginIn(token, version) =>
          HandleLogin(token, version, client, peer, newToken);
        case LogoutIn(token) =>
          if peer.connected && peer.sessionToken == token {
            peer.connected := false;
          }
        case PingIn(token) =>
          if peer.connected && peer.sessionToken == token {
            peer.outbound := peer.outbound + [PingOut(token)];
          }
        case OtherIn =>
        case Undecodable =>
      }
    }

    /** HandleLoginPacket: re-sends the session token of a connected peer,
        denies a wrong login token and then a wrong version straight to the
        client, and otherwise opens a session under `newToken`. */
    method HandleLogin(token: string, version: Version, client: ClientId, peer: McApiNetPeer, newToken: string)
      modifies peer`connected, peer`sessionToken, peer`outbound, this`wsSent
      ensures peer.State() == Handle(old(peer.State()), LoginIn(token, version), loginToken, newToken).0
      ensures peer.outbound == old(peer.outbound) + PeerPackets(Handle(old(peer.State()), LoginIn(token, version), loginToken, newToken).1)
      ensures wsSent == old(wsSent) + Commands(client, ClientPackets(Handle(old(peer.State()), LoginIn(token, version), loginToken, newToken).1))
    {
      ghost var s := peer.State();
      if peer.connected {
        assert Handle(s, LoginIn(token, version), loginToken, newToken) == (s, [ToPeer(AcceptOut(s.sessionToken))]);
        OneReply(ToPeer(AcceptOut(s.sessionToken)), client);
        peer.outbound := peer.outbound + [AcceptOut(peer.sessionToken)];
        return;
      }
      if loginToken != "" && loginToken != token {
        assert Handle(s, LoginIn(token, version), loginToken, newToken) == (s, [ToClient(DenyOut(InvalidLoginTokenReason))]);
        OneReply(ToClient(DenyOut(InvalidLoginTokenReason)), client);
        wsSent := wsSent + [WsSend(client, CommandRequest(DenyOut(InvalidLoginTokenReason)))];
        return;
      }
      if version.major != McWssVersion.major || version.minor != McWssVersion.minor {
        assert Handle(s, LoginIn(token, version), loginToken, newToken) == (s, [ToClient(DenyOut(McIncompatibleVersionReason))]);
        OneReply(ToClient(DenyOut(McIncompatibleVersionReason)), client);
        wsSent := wsSent + [WsSend(client, CommandRequest(DenyOut(McIncompatibleVersionReason)))];
        return;
      }
      assert Handle(s, LoginIn(token, version), loginToken, newToken) == (PeerState(true, newToken), [ToPeer(AcceptOut(newToken))]);
      OneReply(ToPeer(AcceptOut(newToken)), client);
      peer.connected, peer.sessionToken := true, newToken;
      peer.outbound := peer.outbound + [AcceptOut(newToken)];
    }

    /** UpdatePeer: the inbound packets are handled in order (packet i, if
        it is a login that opens a session, gives it `tokens[i]`), then the
        outbound queue is sent to the client in order, then a connected peer
        whose last ping is at least five seconds old is disconnected. */
    method UpdatePeer(client: ClientId, peer: McApiNetPeer, decode: string -> McApiIn, tokens: seq<string>, now: int)
      requires |tokens| == |peer.inbound|
      modifies peer`connected, peer`sessionToken, peer`outbound, peer`inbound, this`wsSent
      ensures var (s, replies) := Run(old(peer.State()), Decoded(old(peer.inbound), decode), loginToken, tokens);
        peer.sessionToken == s.sessionToken
        && peer.connected == (s.connected && peer.lastPing + PingTimeoutMs > now)
        && peer.inbound == [] && peer.outbound == []
        && wsSent == old(wsSent) + Commands(client, ClientPackets(replies))
                     + Commands(client, old(peer.outbound) + PeerPackets(replies))
    {
      HandleInbound(client, peer, decode, tokens);
      peer.inbound := [];
      SendOutbound(client, peer);
      if peer.connected && peer.lastPing + PingTimeoutMs <= now {
        peer.connected := false;
      }
    }

    /** The inbound loop of UpdatePeer, against Run. */
    method HandleInbound(client: ClientId, peer: McApiNetPeer, decode: string -> McApiIn, tokens: seq<string>)
      requires |tokens| == |peer.inbound|
      modifies peer`connected, peer`sessionToken, peer`outbound, this`wsSent
      ensures var (s, replies) := Run(old(peer.State()), Decoded(peer.inbound, decode), loginToken, tokens);
        peer.State() == s
        && peer.outbound == old(peer.outbound) + PeerPackets(replies)
        && wsSent == old(wsSent) + Commands(client, ClientPackets(replies))
    {
      ghost var packets := Decoded(peer.inbound, decode);
      ghost var start := peer.State();
      ghost var queued := peer.outbound;
      ghost var sent := wsSent;
      var inbound := peer.inbound;
      var i := 0;
      while i < |inbound|
        invariant 0 <= i <= |inbound| && inbound == peer.inbound
        invariant var (s, replies) := Run(start, packets[..i], loginToken, tokens[..i]);
          peer.State() == s
          && peer.outbound == queued + PeerPackets(replies)
          && wsSent == sent + Commands(client, ClientPackets(replies))
      {
        HandleStep(client, peer, packets, tokens, i, start, queued, sent, decode(inbound[i]), tokens[i]);
        i := i + 1;
      }
      assert packets[..i] == packets && tokens[..i] == tokens;
    }

    /** One step of UpdatePeer's inbound loop. */
    method HandleStep(client: ClientId, peer: McApiNetPeer, ghost packets: seq<McApiIn>, ghost tokens: seq<string>, i: nat,
                      ghost start: PeerState, ghost queued: seq<McApiOut>, ghost sent: seq<WsSend>, p: McApiIn, newToken: string)
      requires i < |packets| == |tokens| && p == packets[i] && newToken == tokens[i]
      requires var (s, replies) := Run(start, packets[..i], loginToken, tokens[..i]);
        peer.State() == s && peer.outbound == queued + PeerPackets(replies)
        && wsSent == sent + Commands(client, ClientPackets(replies))
      modifies peer`connected, peer`sessionToken, peer`outbound, this`wsSent
      ensures var (s, replies) := Run(start, packets[..i + 1], loginToken, tokens[..i + 1]);
        peer.State() == s && peer.outbound == queued + PeerPackets(replies)
        && wsSent == sent + Commands(client, ClientPackets(replies))
    {
      ghost var (s0, r0) := Run(start, packets[..i], loginToken, tokens[..i]);
      ghost var (s1, r1) := Handle(s0, p, loginToken, tokens[i]);
      assert packets[..i + 1][..i] == packets[..i] && tokens[..i + 1][..i] == tokens[..i];
      HandlePacket(p, client, peer, newToken);
      PeerPacketsAppend(r0, r1);
      ClientPacketsAppend(r0, r1);
      CommandsAppend(client, ClientPackets(r0), ClientPackets(r1));
      Regroup(queued, PeerPackets(r0), PeerPackets(r1));
      Regroup(sent, Commands(client, ClientPackets(r0)), Commands(client, ClientPackets(r1)));
    }

    /** The outbound drain of UpdatePeer. */
    method SendOutbound(client: ClientId, peer: McApiNetPeer)
      modifies peer`outbound, this`wsSent
      ensures peer.outbound == [] && wsSent == old(wsSent) + Commands(client, old(peer.outbound))
    {
      while peer.outbound != []
        invariant old(peer.outbound) == old(peer.outbound)[..|old(peer.outbound)| - |peer.outbound|] + peer.outbound
        invariant wsSent == old(wsSent) + Commands(client, old(peer.outbound)[..|old(peer.outbound)| - |peer.outbound|])
        decreases |peer.outbound|
      {
        ghost var k := |old(peer.outbound)| - |peer.outbound|;
        assert old(peer.outbound)[k] == peer.outbound[0];
        assert old(peer.outbound)[..k + 1][..k] == old(peer.outbound)[..k];
        wsSent := wsSent + [WsSend(client, CommandRequest(peer.outbound[0]))];
        peer.outbound := peer.outbound[1..];
      }
    }

    /** OnClientConnected: a new peer for a client not yet known (TryAdd),
        and the PlayerMessage subscription sent in any case. */
    method OnClientConnected(client: ClientId, now: int) returns (peer: McApiNetPeer?)
      modifies this`peers, this`wsSent
      ensures client in old(peers) ==> peer == null && peers == old(peers)
      ensures client !in old(peers) ==>
        peer != null && fresh(peer) && peers == old(peers)[client := peer]
        && !peer.connected && peer.inbound == [] && peer.outbound == []
      ensures wsSent == old(wsSent) + [WsSend(client, SubscribeMessage)]
    {
      peer := null;
      if client !in peers {
        peer := new McApiNetPeer(now);
        peers := peers[client := peer];
      }
      wsSent := wsSent + [WsSend(client, SubscribeMessage)];
    }

    /** OnClientDisconnected: a known client's peer is removed and
        disconnected. */
    method OnClientDisconnected(client: ClientId)
      modifies this`peers, if client in peers then {peers[client]} else {}
      ensures peers == old(peers) - {client}
      ensures client in old(peers) ==> !old(peers)[client].connected
    {
      if client in peers {
        var peer := peers[client];
        peers := peers - {client};
        peer.connected := false;
      }
    }

    /** HandleEventPacket for a PlayerMessage: the stripped text is queued on
        the client's peer when the filter lets it through. */
    method HandleEventPacket(client: ClientId, receiver: string, sender: string, rawtexts: seq<string>)
      modifies if client in peers then {peers[client]} else {}
      ensures client in peers && InboundText(receiver, sender, rawtexts).Some? ==>
        peers[client].inbound == old(peers[client].inbound) + [InboundText(receiver, sender, rawtexts).value]
      ensures client in peers && InboundText(receiver, sender, rawtexts).None? ==>
        peers[client].inbound == old(peers[client].inbound)
    {
      if receiver != sender || rawtexts == [] {
        return;
      }
      var text := rawtexts[0];
      if !StartsWith(text, ApiPrefix) {
        return;
      }
      if client in peers {
        var peer := peers[client];
        peer.inbound := peer.inbound + [RemoveFirst(text, ApiPrefix)];
      }
    }
  }

  lemma {:induction false} PeerPacketsAppend(a: seq<Reply>, b: seq<Reply>)
    ensures PeerPackets(a + b) == PeerPackets(a) + PeerPackets(b)
    decreases |b|
  {
    if b != [] {
      var n := |b| - 1;
      assert (a + b)[..|a + b| - 1] == a + b[..n];
      PeerPacketsAppend(a, b[..n]);
    } else {
      assert a + b == a;
    }
  }

  lemma {:induction false} ClientPacketsAppend(a: seq<Reply>, b: seq<Reply>)
    ensures ClientPackets(a + b) == ClientPackets(a) + ClientPackets(b)
    decreases |b|
  {
    if b != [] {
      var n := |b| - 1;
      assert (a + b)[..|a + b| - 1] == a + b[..n];
      ClientPacketsAppend(a, b[..n]);
    } else {
      assert a + b == a;
    }
  }

  lemma CommandsAppend(client: ClientId, a: seq<McApiOut>, b: seq<McApiOut>)
    ensures Commands(client, a + b) == Commands(client, a) + Commands(client, b)
  {
  }

  /** Where a single reply goes. */
  lemma OneReply(r: Reply, client: ClientId)
    ensures PeerPackets([r]) == if r.ToPeer? then [r.packet] else []
    ensures Commands(client, ClientPackets([r])) == if r.ToClient? then [WsSend(client, CommandRequest(r.packet))] else []
  {
    assert [r][..0] == [];
  }
}

/** The packet handler: what each packet of a client does to the server and the game. */
module PacketHandlerModel {
  import opened Options
  import opened Text
  import opened Protocol
  import opened World
  import opened Rules
  import opened GameStateModel
  import opened ServerModel
  import C = ClientIds
  import M = Senders

  class PacketHandler {
    const server: Server
    var hand: Option<string>              // the packet taken from the queue
    ghost var taken: Option<M.Datagram>   // that packet and who sent it

    constructor (s: Server)
      requires s.QueueOk()
      ensures server == s && hand == None && HandOk()
    {
      server, hand, taken := s, None, None;
    }

    ghost predicate Valid()
      reads this, server, server.game
    {
      C.Valid(server.Book()) && server.game.Valid() && HandOk()
    }

    ghost predicate HandOk()
      reads this, server
    {
      server.QueueOk()
      && hand == match taken case Some(d) => Some(d.data) case None => None
    }

    /** The server's side of the packet queue. */
    ghost function Desk(): M.Desk
      reads this, server, server.game
    {
      M.Desk(server.Book(), server.running, server.game.playerActions, server.datagrams, taken, server.remoteEndpoint)
    }

    /** `handleImportantPacketReceived`: forgets the one frame that is acknowledged. */
    method HandleImportantPacketReceived(rawData: string)
      modifies server`unacknowledgedPackets
      ensures server.unacknowledgedPackets
              == match ParseAck(rawData)
                 case None => old(server.unacknowledgedPackets)
                 case Some(f) => old(server.unacknowledgedPackets) - {f}
    {
      hide ReadInt, IndexOf;
      var delimiterPos := 0;
      while delimiterPos < |rawData| && rawData[delimiterPos] != ';'
        invariant delimiterPos <= |rawData|
        invariant forall j :: 0 <= j < delimiterPos ==> rawData[j] != ';'
      {
        delimiterPos := delimiterPos + 1;
      }
      IndexOfIs(rawData, ';', delimiterPos);
      if delimiterPos < |rawData| {
        var frameId := ReadInt(rawData[delimiterPos + 1..]);
        if frameId.Some? {
          server.unacknowledgedPackets := server.unacknowledgedPackets - {frameId.value};
        }
      }
    }

    /** `handlePlayerAction`: only while the game runs, only for a known endpoint; the
        endpoint is that of the datagram received last. */
    method HandlePlayerAction(action: int)
      requires Valid()
      modifies server.game`playerActions
      ensures Valid()
      ensures server.game.State()
              == match C.IdOf(server.Book(), server.remoteEndpoint)
                 case Some(id) => if server.running then AddAction(old(server.game.State()), id, action)
                                  else old(server.game.State())
                 case None => old(server.game.State())
    {
      hide Sound, Since, GameState.Valid, C.FindClient;
      if !server.running {
        return;
      }
      var playerId := server.FindClient(server.remoteEndpoint);
      if playerId.Some? {
        server.game.AddPlayerAction(playerId.value, action);
      }
    }

    /** `reqConnect`: the endpoint received from last is connected and answered. */
    method ReqConnect() returns (id: int, reply: string)
      requires Valid()
      modifies server`clients, server`availableIds, server`nbClients
      ensures Valid() && (server.Book(), id) == C.Connect(old(server.Book()), server.remoteEndpoint)
      ensures reply == ControlText(if server.running then GAME_STARTED else GAME_NOT_STARTED, -1)
    {
      hide Sound, Since, C.Valid, GameState.Valid;
      id, reply := server.ReqConnectData(server.remoteEndpoint);
    }

    /** `handleDisconnected`: the endpoint received from last is disconnected. */
    method HandleDisconnected() returns (id: Option<int>, reply: Option<string>)
      requires Valid()
      modifies server`clients, server`availableIds
      ensures Valid() && (server.Book(), id) == C.Disconnect(old(server.Book()), server.remoteEndpoint)
      ensures id == C.IdOf(old(server.Book()), server.remoteEndpoint)
      ensures reply == if id.Some? then None else Some(ControlText(0, -1))
    {
      hide Sound, Since, C.Valid, GameState.Valid;
      id, reply := server.DisconnectData(server.remoteEndpoint);
    }

    /** `handleGameStart`, up to the start of the game thread: the number of
        players that thread is given. */
    method HandleGameStart() returns (numPlayers: nat)
      modifies server`running, server`sendQueue
      ensures server.running && numPlayers == |server.clients|
      ensures server.sendQueue == old(server.sendQueue) + [ControlText(GAME_START, -1)]
    {
      server.running := true;
      numPlayers := |server.clients|;
      var packet := Server.CreatePacket(GAME_START, "");
      ControlDefault(GAME_START);
      server.Broadcast(packet);
    }

    /** The queue's `pop`, which waits until there is a packet. */
    method TakePacket()
      requires Valid() && server.packetQueue != [] && hand == None
      modifies this, server`packetQueue, server`datagrams
      ensures Valid() && Desk() == M.Moved(old(Desk()), M.TakePacket)
    {
      hide Sound, Since, C.Valid, GameState.Valid;
      hand, taken := Some(server.packetQueue[0]), Some(server.datagrams[0]);
      server.packetQueue, server.datagrams := server.packetQueue[1..], server.datagrams[1..];
    }

    /** `handlePacket` for the packet taken: the handler of its type; types without an
        effect of their own, and unknown ones, change nothing. */
    method HandlePacket() returns (replies: seq<(C.Endpoint, string)>)
      requires Valid() && hand.Some?
      modifies this, server`clients, server`availableIds, server`nbClients, server`running, server`sendQueue
      modifies server`unacknowledgedPackets, server.game`playerActions
      ensures Valid() && Desk() == M.Moved(old(Desk()), M.HandlePacket)
      ensures server.game.State() == old(server.game.State()).(actions := server.game.playerActions)
      ensures replies == M.RepliesTo(old(server.Book()), server.running, old(hand).value, server.remoteEndpoint)
      ensures server.sendQueue
              == old(server.sendQueue)
                 + if M.TypeOf(old(hand).value) == GAME_START then [ControlText(GAME_START, -1)] else []
      ensures server.unacknowledgedPackets
              == match (if M.TypeOf(old(hand).value) != IMPORTANT_PACKET_RECEIVED then None
                        else ParseAck(old(hand).value))
                 case None => old(server.unacknowledgedPackets)
                 case Some(f) => old(server.unacknowledgedPackets) - {f}
    {
      hide Sound, Since, GameState.Valid, C.Valid, C.FindClient, ParseAck, C.Connect, C.Disconnect, C.IdOf;
      hide ControlText, M.TypeOf;
      var rawData := hand.value;
      var code := M.TypeOf(rawData);
      replies := [];
      if code == M.REQ_CONNECT {
        var id, reply := ReqConnect();
        replies := [(server.remoteEndpoint, reply)];
      } else if code == M.DISCONNECTED {
        var id, reply := HandleDisconnected();
        if reply.Some? {
          replies := [(server.remoteEndpoint, reply.value)];
        }
      } else if code == GAME_START {
        var numPlayers := HandleGameStart();
      } else if code == IMPORTANT_PACKET_RECEIVED {
        HandleImportantPacketReceived(rawData);
      } else if M.ActionOf(code).Some? {
        HandlePlayerAction(M.ActionOf(code).value);
      }
      hand, taken := None, None;
    }

    /** One move of the queue model, done by the objects. */
    method Do(move: M.Move) returns (replies: seq<(C.Endpoint, string)>)
      requires Valid() && M.CanMove(Desk(), move)
      modifies this, server, server.game`playerActions
      ensures Valid() && Desk() == M.Moved(old(Desk()), move)
    {
      hide Sound, Since, C.Valid, GameState.Valid, M.BookAfter, M.ActionFor;
      replies := [];
      match move {
        case Incoming(d) => server.HandleReceive(d.data, d.from);
        case TakePacket => TakePacket();
        case HandlePacket => replies := HandlePacket();
      }
    }
  }
}

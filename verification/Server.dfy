/** The server as an object: its client book, its delta cache, its queues and the
    loop that turns the newest frame into text, changed in place. */
module ServerModel {
  import opened Options
  import opened Text
  import opened Protocol
  import opened World
  import opened Rules
  import opened Replication
  import opened GameStateModel
  import opened Marker
  import C = ClientIds
  import M = Senders

  /** A frame kept until it is acknowledged or 10 milliseconds old. */
  const RESEND_DELAY: int := 10

  /** The frames sent again in one turn, by number. */
  function Resends(stored: map<int, string>, age: int -> int, n: nat): seq<string> {
    if n == 0 then []
    else Resends(stored, age, n - 1) + if n - 1 in stored && age(n - 1) < RESEND_DELAY then [stored[n - 1]] else []
  }

  /** The frames still stored after that turn. */
  function Young(stored: map<int, string>, age: int -> int): map<int, string> {
    map k | k in stored && age(k) < RESEND_DELAY :: stored[k]
  }

  /** The frames that are sent again: stored, and younger than 10 milliseconds. */
  function ResentBelow(stored: map<int, string>, age: int -> int, n: int): set<int> {
    set k | k in stored && 0 <= k < n && age(k) < 10
  }

  lemma ResentNext(stored: map<int, string>, age: int -> int, n: nat)
    ensures ResentBelow(stored, age, n + 1)
            == if n in stored && age(n) < 10 then ResentBelow(stored, age, n) + {n} else ResentBelow(stored, age, n)
    ensures n !in ResentBelow(stored, age, n) && ResentBelow(stored, age, 0) == {}
  {
  }

  /** The frame number `k` is sent again in its turn. */
  ghost predicate ResentAt(stored: map<int, string>, age: int -> int, n: nat, k: nat) {
    k in ResentBelow(stored, age, n) ==>
      var rank := |ResentBelow(stored, age, k)|;
      rank < |Resends(stored, age, n)| && Resends(stored, age, n)[rank] == stored[k]
  }

  lemma ResentNothing(stored: map<int, string>, age: int -> int, k: nat)
    ensures ResentAt(stored, age, 0, k)
    ensures |Resends(stored, age, 0)| == |ResentBelow(stored, age, 0)|
  {
    ResentNext(stored, age, 0);
  }

  lemma ResentMore(stored: map<int, string>, age: int -> int, n: nat, k: nat)
    requires ResentAt(stored, age, n, k) && |Resends(stored, age, n)| == |ResentBelow(stored, age, n)|
    ensures ResentAt(stored, age, n + 1, k) && |Resends(stored, age, n + 1)| == |ResentBelow(stored, age, n + 1)|
  {
    hide ResentBelow;
    ResentNext(stored, age, n);
    InStore(stored, age, n + 1, k);
  }

  lemma InStore(stored: map<int, string>, age: int -> int, n: nat, k: int)
    ensures k in ResentBelow(stored, age, n) <==> k in stored && 0 <= k < n && age(k) < 10
  {
  }

  /** Exactly the stored frames younger than 10 milliseconds are sent again, each once
      and by number, and exactly they stay stored. */
  lemma {:induction false} ResentExactly(stored: map<int, string>, age: int -> int, n: nat)
    ensures |Resends(stored, age, n)| == |ResentBelow(stored, age, n)|
    ensures forall k: nat :: ResentAt(stored, age, n, k)
    ensures forall k :: k in Young(stored, age) <==> k in stored && age(k) < 10
    ensures forall k :: k in Young(stored, age) ==> Young(stored, age)[k] == stored[k]
  {
    hide ResentBelow, ResentAt;
    if n == 0 {
      forall k: nat ensures ResentAt(stored, age, 0, k) { ResentNothing(stored, age, k); }
      ResentNothing(stored, age, 0);
    } else {
      ResentExactly(stored, age, n - 1);
      forall k: nat ensures ResentAt(stored, age, n, k) { ResentMore(stored, age, n - 1, k); }
      ResentMore(stored, age, n - 1, 0);
    }
  }

  /** One message to every client, by identifier. */
  function Deliveries(clients: map<int, C.ClientRegister>, message: string, n: nat): seq<(C.Endpoint, string)> {
    if n == 0 then []
    else Deliveries(clients, message, n - 1) + if n - 1 in clients then [(clients[n - 1].endpoint, message)] else []
  }

  lemma Rebracket(a: string, b: string, c: string)
    ensures (a + b) + c == a + (b + c)
  {
  }

  lemma NextEntity(es: map<int, Entity>, cache: Cache, n: nat)
    ensures n in es && Dumped(es[n].kind) ==>
              Dump(es, n + 1) == Dump(es, n) + [Create(es[n].kind, n, es[n].x, es[n].y)]
    ensures !(n in es && Dumped(es[n].kind)) ==> Dump(es, n + 1) == Dump(es, n)
    ensures n in es && Stale(cache, n, Position(es[n])) ==>
              Changes(es, cache, n + 1) == Changes(es, cache, n) + [Change(n, es[n].x, es[n].y)]
    ensures !(n in es && Stale(cache, n, Position(es[n]))) ==> Changes(es, cache, n + 1) == Changes(es, cache, n)
  {
  }

  lemma RefreshedNext(es: map<int, Entity>, cache: Cache, n: nat)
    ensures Refreshed(es, cache, n + 1)
            == if n in es then Refreshed(es, cache, n)[n := Position(es[n])] else Refreshed(es, cache, n)
    ensures Stale(Refreshed(es, cache, n), n, (0, 0)) == Stale(cache, n, (0, 0))
    ensures n in Refreshed(es, cache, n) <==> n in cache
    ensures n in cache ==> Refreshed(es, cache, n)[n] == cache[n]
  {
  }

  lemma RefreshedNone(es: map<int, Entity>, cache: Cache)
    requires forall id :: id in es ==> 0 <= id
    ensures Refreshed(es, cache, 0) == cache
  {
  }

  class Server {
    const game: GameState
    var clients: map<int, C.ClientRegister>
    var availableIds: seq<int>
    var nbClients: nat
    var running: bool
    var sendQueue: seq<string>
    var unacknowledgedPackets: map<int, string>
    var lastKnownPositions: Cache
    var lastClientCount: nat
    var packetQueue: seq<string>
    var remoteEndpoint: C.Endpoint
    ghost var datagrams: seq<M.Datagram>  // the queued packets and who sent them

    /** The queue holds the texts of the datagrams, in order. */
    ghost predicate QueueOk()
      reads this
    {
      |datagrams| == |packetQueue| && forall i :: 0 <= i < |datagrams| ==> datagrams[i].data == packetQueue[i]
    }

    ghost function Book(): C.Book
      reads this
    {
      C.Book(clients, availableIds, nbClients)
    }

    /** The sending side of the pipeline; the game numbers its frames from 0 on. */
    ghost function Sending(): Sender
      reads this, game
    {
      Sender(game.State(), lastKnownPositions, lastClientCount, game.frameId)
    }

    constructor (g: GameState)
      ensures game == g && C.Valid(Book()) && Book() == C.EmptyBook() && !running
      ensures sendQueue == [] && unacknowledgedPackets == map[] && lastKnownPositions == map[] && lastClientCount == 0
      ensures QueueOk() && packetQueue == []
    {
      game, clients, availableIds, nbClients, running := g, map[], [], 0, false;
      sendQueue, unacknowledgedPackets, lastKnownPositions, lastClientCount := [], map[], map[], 0;
      packetQueue, remoteEndpoint, datagrams := [], C.Endpoint(0, 0), [];
    }

    /** `handle_receive`: the packet is queued without its sender, and reception
        goes on into the same endpoint. */
    method HandleReceive(data: string, from: C.Endpoint)
      requires QueueOk()
      modifies this`packetQueue, this`remoteEndpoint, this`datagrams
      ensures QueueOk() && packetQueue == old(packetQueue) + [data] && remoteEndpoint == from
      ensures datagrams == old(datagrams) + [M.Datagram(from, data)]
    {
      remoteEndpoint := from;
      packetQueue := packetQueue + [data];
      datagrams := datagrams + [M.Datagram(from, data)];
    }

    // ----- Packets -----

    static method CreatePacket(code: nat, data: string) returns (packet: string)
      requires code < 256
      ensures packet == PacketText(code, data)
    {
      packet := [];
      var packetData := if data == "" then NOTHING else data;
      packet := packet + [code as char];
      packet := packet + [';'];
      for i := 0 to |packetData|
        invariant packet == [code as char] + [';'] + packetData[..i]
      {
        packet := packet + [packetData[i]];
      }
      assert packetData[..|packetData|] == packetData;
    }

    /** `std::string::find`, as a test. */
    static method Find(text: string, part: string) returns (found: bool)
      ensures found <==> Contains(text, part)
    {
      var i := 0;
      found := false;
      while i + |part| <= |text|
        invariant forall j :: j < i ==> !At(text, j, part)
        decreases |text| - i
      {
        if At(text, i, part) {
          return true;
        }
        i := i + 1;
      }
    }

    method Broadcast(message: string)
      modifies this`sendQueue
      ensures sendQueue == old(sendQueue) + [message]
    {
      sendQueue := sendQueue + [message];
    }

    // ----- Clients -----

    method FindClient(e: C.Endpoint) returns (r: Option<int>)
      ensures r == C.IdOf(Book(), e)
    {
      for id := 0 to nbClients
        invariant C.FindClient(clients, e, id) == None
      {
        if id in clients && clients[id].endpoint == e {
          C.FindClientStays(clients, e, id + 1, nbClients);
          return Some(id);
        }
      }
      return None;
    }

    method CreateClient(e: C.Endpoint) returns (nb: int)
      requires C.Valid(Book())
      modifies this`clients, this`availableIds, this`nbClients
      ensures C.Valid(Book()) && (Book(), nb) == C.Connect(old(Book()), e)
    {
      hide C.Valid, C.FindClient;
      C.ConnectKeeps(Book(), e);
      var known := FindClient(e);
      if known.Some? {
        return known.value;
      }
      if availableIds != [] {
        nb := availableIds[0];
        availableIds := availableIds[1..];
      } else {
        nb := nbClients;
        nbClients := nbClients + 1;
      }
      clients := clients[nb := C.ClientRegister(nb, e)];
    }

    /** `reqConnectData`: the identifier, and the packet sent back at once. */
    method ReqConnectData(e: C.Endpoint) returns (id: int, reply: string)
      requires C.Valid(Book())
      modifies this`clients, this`availableIds, this`nbClients
      ensures C.Valid(Book()) && (Book(), id) == C.Connect(old(Book()), e)
      ensures reply == ControlText(if running then GAME_STARTED else GAME_NOT_STARTED, -1)
    {
      hide C.Valid, C.FindClient;
      id := CreateClient(e);
      if running {
        reply := CreatePacket(GAME_STARTED, "");
        ControlDefault(GAME_STARTED);
      } else {
        reply := CreatePacket(GAME_NOT_STARTED, "");
        ControlDefault(GAME_NOT_STARTED);
      }
    }

    /** `disconnectData`; an unknown endpoint is answered with a NONE packet. */
    method DisconnectData(e: C.Endpoint) returns (id: Option<int>, reply: Option<string>)
      requires C.Valid(Book())
      modifies this`clients, this`availableIds
      ensures C.Valid(Book()) && (Book(), id) == C.Disconnect(old(Book()), e)
      ensures reply == if id.Some? then None else Some(ControlText(0, -1))
    {
      hide C.Valid, C.FindClient;
      C.DisconnectKeeps(Book(), e);
      id := FindClient(e);
      if id.Some? {
        availableIds := availableIds + [id.value];
        clients := clients - {id.value};
        return id, None;
      }
      var packet := CreatePacket(0, "");
      ControlDefault(0);
      return None, Some(packet);
    }

    // ----- Frames -----

    /** `hasPositionChanged`. */
    method HasPositionChanged(id: int, position: (int, int)) returns (changed: bool)
      modifies this`lastKnownPositions
      ensures changed == Stale(old(lastKnownPositions), id, position)
      ensures lastKnownPositions == old(lastKnownPositions)[id := position]
    {
      if id !in lastKnownPositions || lastKnownPositions[id] != position {
        lastKnownPositions := lastKnownPositions[id := position];
        return true;
      }
      return false;
    }

    /** The packet of an entity at its place. */
    method EntityPacket(code: nat, id: int) returns (packet: string)
      requires code < 256 && id in game.entities
      ensures packet
              == PacketText(code, Join(IntText(id), FixText(game.entities[id].x), FixText(game.entities[id].y)) + "/")
    {
      hide IntText, FixText;
      var position := game.GetEntityPosition(id).value;
      packet := CreatePacket(code, Join(IntText(id), FixText(position.0), FixText(position.1)) + "/");
    }

    method SendAllEntitiesToNewClients(frameInfos: string) returns (infos: string)
      requires game.Valid()
      ensures infos == frameInfos + RenderAll(Dump(game.entities, game.idToSet))
    {
      hide IntText, FixText, RenderAll, PacketText, Sound, Since, GameState.Valid;
      infos := frameInfos;
      RenderAllNothing();
      for id := 0 to game.idToSet
        invariant infos == frameInfos + RenderAll(Dump(game.entities, id))
      {
        NextEntity(game.entities, map[], id);
        if id in game.entities && Dumped(game.entities[id].kind) {
          var e := game.entities[id];
          var packet := EntityPacket(CreateCode(e.kind), id);
          infos := infos + packet;
          RenderAllPush(Dump(game.entities, id), Create(e.kind, id, e.x, e.y));
          Rebracket(frameInfos, RenderAll(Dump(game.entities, id)), packet);
        }
      }
    }

    method PacketFactory(frameInfos: string) returns (infos: string)
      requires game.Valid()
      modifies this`lastKnownPositions
      ensures infos == frameInfos + RenderAll(Changes(game.entities, old(lastKnownPositions), game.idToSet))
      ensures lastKnownPositions == Refreshed(game.entities, old(lastKnownPositions), game.idToSet)
    {
      hide IntText, FixText, RenderAll, PacketText, Refreshed, Since;
      infos := frameInfos;
      ghost var cache := lastKnownPositions;
      RenderAllNothing();
      RefreshedNone(game.entities, cache);
      for id := 0 to game.idToSet
        invariant infos == frameInfos + RenderAll(Changes(game.entities, cache, id))
        invariant lastKnownPositions == Refreshed(game.entities, cache, id)
      {
        NextEntity(game.entities, cache, id);
        RefreshedNext(game.entities, cache, id);
        if id in game.entities {
          var e := game.entities[id];
          var changed := HasPositionChanged(id, (e.x, e.y));
          if changed {
            var packet := EntityPacket(CHANGE, id);
            infos := infos + packet;
            RenderAllPush(Changes(game.entities, cache, id), Change(id, e.x, e.y));
            Rebracket(frameInfos, RenderAll(Changes(game.entities, cache, id)), packet);
          }
        }
      }
    }

    /** Stores the text under the frame's number if it holds the marker text, and queues it. */
    method SendFrame(text: string, frameId: int)
      modifies this`sendQueue, this`unacknowledgedPackets
      ensures sendQueue == old(sendQueue) + [text]
      ensures unacknowledgedPackets
              == if Contains(text, MARKER) && frameId !in old(unacknowledgedPackets)
                 then old(unacknowledgedPackets)[frameId := text] else old(unacknowledgedPackets)
    {
      var found := Find(text, MARKER);
      if found && frameId !in unacknowledgedPackets {
        unacknowledgedPackets := unacknowledgedPackets[frameId := text];
      }
      Broadcast(text);
    }

    /** `resendImportPackets` over the stored frames, all numbered below `n`. */
    method ResendImportPackets(age: int -> int, n: nat)
      requires forall k :: k in unacknowledgedPackets ==> 0 <= k < n
      modifies this`sendQueue, this`unacknowledgedPackets
      ensures sendQueue == old(sendQueue) + Resends(old(unacknowledgedPackets), age, n)
      ensures unacknowledgedPackets == Young(old(unacknowledgedPackets), age)
    {
      ghost var stored := unacknowledgedPackets;
      for k := 0 to n
        invariant sendQueue == old(sendQueue) + Resends(stored, age, k)
        invariant forall j :: j in unacknowledgedPackets <==> j in stored && (j < k ==> age(j) < RESEND_DELAY)
        invariant forall j :: j in unacknowledgedPackets ==> unacknowledgedPackets[j] == stored[j]
      {
        if k in unacknowledgedPackets {
          if age(k) < RESEND_DELAY {
            SendFrame(unacknowledgedPackets[k], k);
          } else {
            unacknowledgedPackets := unacknowledgedPackets - {k};
          }
        }
      }
      assert forall j :: j in stored ==> j < n;
      assert forall j :: j in unacknowledgedPackets <==> j in Young(stored, age);
      assert unacknowledgedPackets == Young(stored, age);
    }

    /** `SendLatencyCheck`: the clock value, when the refresh interval is over. */
    method SendLatencyCheck(clock: Option<int>)
      modifies this`sendQueue
      ensures sendQueue == old(sendQueue) + if clock.Some? then [ControlText(LATENCY_CHECK, clock.value)] else []
    {
      hide IntText;
      if clock.Some? {
        var packet := CreatePacket(LATENCY_CHECK, Join(IntText(clock.value), "-1", "-1/"));
        Broadcast(packet);
      }
    }

    /** The text a frame is sent as. */
    ghost function FrameSent(frameId: int, infos: string): string
      reads this, game
    {
      IntText(frameId) + ":" + infos
      + (if |clients| > lastClientCount then RenderAll(Dump(game.entities, game.idToSet)) else "")
      + RenderAll(Changes(game.entities, lastKnownPositions, game.idToSet))
    }

    /** The part of the server loop that sends the newest frame, once, after the
        start-up time. */
    method SendNewest(started: bool)
      requires game.Valid() && game.FramesOk()
      modifies this`sendQueue, this`unacknowledgedPackets, this`lastKnownPositions, this`lastClientCount
      modifies game`engineFrames
      ensures var n := game.frameId - 1;
              if started && 0 <= n && !old(game.engineFrames)[n].sent then
                var text := old(FrameSent(n, game.engineFrames[n].frameInfos));
                && sendQueue == old(sendQueue) + [text]
                && unacknowledgedPackets == (if Contains(text, MARKER) && n !in old(unacknowledgedPackets)
                                             then old(unacknowledgedPackets)[n := text] else old(unacknowledgedPackets))
                && lastClientCount == (if |clients| > old(lastClientCount) then |clients| else old(lastClientCount))
                && lastKnownPositions == Refreshed(game.entities, old(lastKnownPositions), game.idToSet)
                && game.engineFrames == old(game.engineFrames)[n := old(game.engineFrames)[n].(sent := true)]
              else
                && sendQueue == old(sendQueue) && unacknowledgedPackets == old(unacknowledgedPackets)
                && lastClientCount == old(lastClientCount) && lastKnownPositions == old(lastKnownPositions)
                && game.engineFrames == old(game.engineFrames)
      ensures game.FramesOk()
    {
      hide IntText, RenderAll, Refreshed, Sound, Since, Contains;
      if started && 0 < game.frameId {
        var n := game.frameId - 1;
        var frame := game.engineFrames[n];
        if !frame.sent {
          var text := IntText(n) + ":" + frame.frameInfos;
          if |clients| > lastClientCount {
            lastClientCount := |clients|;
            text := SendAllEntitiesToNewClients(text);
          }
          assert text + "" == text;
          text := PacketFactory(text);
          SendFrame(text, n);
          game.engineFrames := game.engineFrames[n := frame.(sent := true)];
        }
      }
    }

    /** `handle_send_timer`: the oldest message goes to every client. */
    method HandleSendTimer() returns (sent: seq<(C.Endpoint, string)>)
      modifies this`sendQueue
      ensures if old(sendQueue) == [] then sent == [] && sendQueue == []
              else sent == Deliveries(clients, old(sendQueue)[0], nbClients) && sendQueue == old(sendQueue)[1..]
    {
      sent := [];
      if sendQueue != [] {
        var message := sendQueue[0];
        sendQueue := sendQueue[1..];
        for id := 0 to nbClients
          invariant sent == Deliveries(clients, message, id)
          invariant sendQueue == old(sendQueue)[1..] && message == old(sendQueue)[0]
        {
          if id in clients {
            sent := sent + [(clients[id].endpoint, message)];
          }
        }
      }
    }

    /** One turn of the server loop: the newest frame, the latency check, the frames
        sent again. */
    method RunOnce(started: bool, clock: Option<int>, age: int -> int)
      requires game.Valid() && game.FramesOk() && forall k :: k in unacknowledgedPackets ==> 0 <= k < game.frameId
      modifies this`sendQueue, this`unacknowledgedPackets, this`lastKnownPositions, this`lastClientCount
      modifies game`engineFrames
      ensures game.FramesOk() && forall k :: k in unacknowledgedPackets ==> 0 <= k < game.frameId
      ensures var n := game.frameId - 1;
              var sends := started && 0 <= n && !old(game.engineFrames)[n].sent;
              var text := if sends then old(FrameSent(n, game.engineFrames[n].frameInfos)) else "";
              var stored := if sends && Contains(text, MARKER) && n !in old(unacknowledgedPackets)
                            then old(unacknowledgedPackets)[n := text] else old(unacknowledgedPackets);
              && sendQueue == old(sendQueue) + (if sends then [text] else [])
                              + (if clock.Some? then [ControlText(LATENCY_CHECK, clock.value)] else [])
                              + Resends(stored, age, game.frameId)
              && unacknowledgedPackets == Young(stored, age)
              && lastKnownPositions == (if sends then Refreshed(game.entities, old(lastKnownPositions), game.idToSet)
                                        else old(lastKnownPositions))
              && lastClientCount
                 == (if sends && |clients| > old(lastClientCount) then |clients| else old(lastClientCount))
              && game.engineFrames
                 == (if sends then old(game.engineFrames)[n := old(game.engineFrames)[n].(sent := true)]
                     else old(game.engineFrames))
    {
      hide IntText, RenderAll, Refreshed, Sound, Since, Contains, GameState.Valid, FrameSent, Resends;
      SendNewest(started);
      SendLatencyCheck(clock);
      ResendImportPackets(age, game.frameId);
    }

    /** The actions that arrive between two updates. */
    method ReceiveActions(arrivals: seq<(int, int)>)
      requires game.Valid()
      modifies game`playerActions
      ensures game.Valid() && game.State() == AddAll(old(game.State()), arrivals)
    {
      hide Sound, Since, RenderAll;
      for i := 0 to |arrivals|
        invariant game.Valid() && game.State() == AddAll(old(game.State()), arrivals[..i])
      {
        assert arrivals[..i + 1][..i] == arrivals[..i];
        game.AddPlayerAction(arrivals[i].0, arrivals[i].1);
      }
      assert arrivals[..|arrivals|] == arrivals;
    }

    /** A whole turn of game and server when the frame is sent before the next
        update: the actions that arrived, the update, the send. */
    method FrameThenSend(arrivals: seq<(int, int)>, input: Input)
      requires game.Valid() && game.FramesOk()
      modifies game, this`sendQueue, this`unacknowledgedPackets, this`lastKnownPositions, this`lastClientCount
      ensures game.Valid() && game.FramesOk()
      ensures Sending() == Next(old(Sending()), Turn(arrivals, input, |clients|))
      ensures sendQueue == old(sendQueue) + [Message(old(Sending()), Turn(arrivals, input, |clients|))]
      ensures unacknowledgedPackets == old(unacknowledgedPackets)
    {
      hide RenderAll, Refreshed, Update, Contains, IntText, Dump, Changes, AddAll, FrameText, Sent;
      hide Sound, Since, IdsOk, Survives;

      ReceiveActions(arrivals);
      game.RunFrame(input);
      SentText(game.frameId - 1, game.State(), lastKnownPositions, |clients| > lastClientCount);
      MarkerNeverSent(game.frameId - 1, Sent(game.State(), lastKnownPositions, |clients| > lastClientCount));
      SendNewest(true);
    }
  }

  predicate Holds(clients: map<int, C.ClientRegister>, id: int, e: C.Endpoint) {
    id in clients && clients[id].endpoint == e
  }

  /** A message goes to every connected endpoint, to each once, and to no other. */
  lemma {:induction false} EveryClientOnce(b: C.Book, message: string, n: nat)
    requires C.Registered(b)
    ensures var ds := Deliveries(b.clients, message, n);
            && (forall d :: d in ds ==> d.1 == message)
            && (forall e :: (e, message) in ds <==> exists id :: 0 <= id < n && Holds(b.clients, id, e))
            && (forall i, j :: 0 <= i < j < |ds| ==> ds[i] != ds[j])
  {
    if n > 0 {
      EveryClientOnce(b, message, n - 1);
      var before, ds := Deliveries(b.clients, message, n - 1), Deliveries(b.clients, message, n);
      if n - 1 in b.clients {
        var last := b.clients[n - 1].endpoint;
        assert Holds(b.clients, n - 1, last);
        assert forall id :: 0 <= id < n - 1 ==> !Holds(b.clients, id, last);
        assert ds == before + [(last, message)];
      } else {
        assert ds == before;
      }
    }
  }

  /** The text of a sent frame, piece by piece. */
  lemma SentText(id: int, g: Game, cache: Cache, newcomer: bool)
    ensures FrameText(id, Sent(g, cache, newcomer))
            == IntText(id) + ":" + RenderAll(g.frame)
               + (if newcomer then RenderAll(Dump(g.entities, g.nextId)) else "")
               + RenderAll(Changes(g.entities, cache, g.nextId))
  {
    hide RenderAll, Dump, Changes, IntText;
    var dump := if newcomer then Dump(g.entities, g.nextId) else [];
    RenderAllNothing();
    RenderAllAppend(g.frame, dump);
    RenderAllAppend(g.frame + dump, Changes(g.entities, cache, g.nextId));
  }
}

/** For whom a packet acts. A queued packet does not carry its sender: the handler
    acts for the sender of the datagram that was received last. */
module Senders {
  import opened Options
  import opened Protocol
  import opened World
  import opened Stages
  import C = ClientIds

  const REQ_CONNECT: nat := 1
  const DISCONNECTED: nat := 2

  /** The packet type `deserializePacket` reads; an empty packet counts as type 0. */
  function TypeOf(data: string): nat { if data == "" then 0 else data[0] as int }

  /** The action a packet type asks for: left, right, up, down or shoot. */
  function ActionOf(code: nat): Option<int> {
    match code
    case 6 => Some(5)
    case 16 => Some(2)
    case 17 => Some(1)
    case 18 => Some(3)
    case 19 => Some(4)
    case _ => None
  }

  /** The book after a packet that acts for an endpoint. */
  function BookAfter(b: C.Book, data: string, e: C.Endpoint): C.Book {
    if TypeOf(data) == REQ_CONNECT then C.Connect(b, e).0
    else if TypeOf(data) == DISCONNECTED then C.Disconnect(b, e).0
    else b
  }

  /** The action it queues: only while the game runs, only for a known endpoint. */
  function ActionFor(b: C.Book, running: bool, data: string, e: C.Endpoint): seq<Action> {
    match (ActionOf(TypeOf(data)), C.IdOf(b, e))
    case (Some(code), Some(id)) => if running then [Action(id, code, false)] else []
    case _ => []
  }

  /** What is sent back at once. */
  function RepliesTo(b: C.Book, running: bool, data: string, e: C.Endpoint): seq<(C.Endpoint, string)> {
    if TypeOf(data) == REQ_CONNECT then [(e, ControlText(if running then GAME_STARTED else GAME_NOT_STARTED, -1))]
    else if TypeOf(data) == DISCONNECTED && C.IdOf(b, e) == None then [(e, ControlText(0, -1))]
    else []
  }

  datatype Datagram = Datagram(from: C.Endpoint, data: string)

  /** The server's side of the packet queue: the packet the handler has taken, and
      the endpoint of the datagram received last. */
  datatype Desk = Desk(book: C.Book, running: bool, actions: seq<Action>, queue: seq<Datagram>,
                       hand: Option<Datagram>, last: C.Endpoint)

  datatype Move = Incoming(datagram: Datagram) | TakePacket | HandlePacket

  predicate CanMove(d: Desk, move: Move) {
    match move
    case Incoming(_) => true
    case TakePacket => d.queue != [] && d.hand == None
    case HandlePacket => d.hand.Some?
  }

  function Moved(d: Desk, move: Move): Desk
    requires CanMove(d, move)
  {
    match move
    case Incoming(datagram) => d.(queue := d.queue + [datagram], last := datagram.from)
    case TakePacket => d.(queue := d.queue[1..], hand := Some(d.queue[0]))
    case HandlePacket =>
      var data := d.hand.value.data;
      d.(book := BookAfter(d.book, data, d.last),
         actions := d.actions + ActionFor(d.book, d.running, data, d.last),
         running := d.running || TypeOf(data) == GAME_START,
         hand := None)
  }

  predicate AllMovesPossible(d: Desk, moves: seq<Move>)
    decreases |moves|, 0
  {
    moves == [] ||
    (var front := moves[..|moves| - 1];
     AllMovesPossible(d, front) && CanMove(After(d, front), moves[|moves| - 1]))
  }

  function After(d: Desk, moves: seq<Move>): Desk
    requires AllMovesPossible(d, moves)
    decreases |moves|, 1
  {
    if moves == [] then d else Moved(After(d, moves[..|moves| - 1]), moves[|moves| - 1])
  }

  /** The endpoint remembered is that of the newest packet still there. */
  ghost predicate LastIsNewest(d: Desk) {
    if d.queue != [] then d.last == d.queue[|d.queue| - 1].from else d.hand.Some? ==> d.last == d.hand.value.from
  }

  ghost predicate DeskOk(d: Desk) { C.Valid(d.book) && LastIsNewest(d) }

  lemma MoveKeepsDesk(d: Desk, move: Move)
    requires DeskOk(d) && CanMove(d, move)
    ensures DeskOk(Moved(d, move))
  {
    hide C.Valid, C.Connect, C.Disconnect;
    C.ConnectKeeps(d.book, d.last);
    C.DisconnectKeeps(d.book, d.last);
  }

  lemma {:induction false} RunKeepsDesk(d: Desk, moves: seq<Move>)
    requires DeskOk(d) && AllMovesPossible(d, moves)
    ensures DeskOk(After(d, moves))
  {
    hide DeskOk, CanMove, Moved;
    if moves != [] {
      RunKeepsDesk(d, moves[..|moves| - 1]);
      MoveKeepsDesk(After(d, moves[..|moves| - 1]), moves[|moves| - 1]);
    }
  }

  /** Two endpoints with one identifier are one endpoint. */
  lemma SameIdSameEndpoint(b: C.Book, e: C.Endpoint, f: C.Endpoint)
    ensures C.IdOf(b, e).Some? && C.IdOf(b, e) == C.IdOf(b, f) ==> e == f
  {
  }

  /** The packet that the handler has taken acts for its sender if and only if no
      newer packet is waiting, or the newest one comes from the same sender. Said of
      each kind of packet by what it is for: an action of a known client while the
      game runs, a new client's connection, a known client's departure. */
  lemma ActsForItsSenderExactlyWhen(start: Desk, moves: seq<Move>)
    requires DeskOk(start) && AllMovesPossible(start, moves) && After(start, moves).hand.Some?
    ensures var d := After(start, moves);
            var sender, data := d.hand.value.from, d.hand.value.data;
            var newestIsSenders := d.queue == [] || d.queue[|d.queue| - 1].from == sender;
            && (d.last == sender <==> newestIsSenders)
            && (d.running && ActionOf(TypeOf(data)).Some? && C.IdOf(d.book, sender).Some? ==>
                  (Moved(d, HandlePacket).actions == d.actions + ActionFor(d.book, true, data, sender)
                   <==> newestIsSenders))
            && (TypeOf(data) == REQ_CONNECT && C.IdOf(d.book, sender) == None ==>
                  (C.IdOf(Moved(d, HandlePacket).book, sender).Some? <==> newestIsSenders))
            && (TypeOf(data) == DISCONNECTED && C.IdOf(d.book, sender).Some? ==>
                  (C.IdOf(Moved(d, HandlePacket).book, sender) == None <==> newestIsSenders))
  {
    hide C.Valid, C.Connect, C.Disconnect, C.FindClient, After, AllMovesPossible, C.IdOf, ActionFor;
    RunKeepsDesk(start, moves);
    var d := After(start, moves);
    var sender, data := d.hand.value.from, d.hand.value.data;
    ActionIsFor(d.book, data, d.last, sender);
    SameActions(d.actions, ActionFor(d.book, true, data, d.last), ActionFor(d.book, true, data, sender));
    ConnectionOf(d.book, d.last, sender);
    DepartureOf(d.book, d.last, sender);
  }

  lemma SameActions(actions: seq<Action>, a: seq<Action>, b: seq<Action>)
    ensures actions + a == actions + b <==> a == b
  {
    assert (actions + a)[|actions|..] == a && (actions + b)[|actions|..] == b;
  }

  lemma ActionIsFor(b: C.Book, data: string, last: C.Endpoint, sender: C.Endpoint)
    ensures ActionOf(TypeOf(data)).Some? && C.IdOf(b, sender).Some? ==>
              (ActionFor(b, true, data, last) == ActionFor(b, true, data, sender) <==> last == sender)
  {
    hide C.IdOf, ActionOf, TypeOf;
    SameIdSameEndpoint(b, sender, last);
  }

  /** An endpoint has an identifier exactly while it is connected. */
  lemma ConnectedAre(b: C.Book, e: C.Endpoint)
    requires C.Valid(b)
    ensures C.IdOf(b, e).Some? <==> exists id :: id in b.clients && b.clients[id].endpoint == e
  {
  }

  lemma ConnectionOf(b: C.Book, last: C.Endpoint, sender: C.Endpoint)
    requires C.Valid(b)
    ensures C.IdOf(b, sender) == None ==> (C.IdOf(C.Connect(b, last).0, sender).Some? <==> last == sender)
  {
    hide C.Valid, C.Connect, C.FindClient, C.IdOf;
    C.ConnectKeeps(b, last);
    ConnectedAre(b, sender);
    ConnectedAre(C.Connect(b, last).0, sender);
  }

  lemma DepartureOf(b: C.Book, last: C.Endpoint, sender: C.Endpoint)
    requires C.Valid(b)
    ensures C.IdOf(b, sender).Some? ==> (C.IdOf(C.Disconnect(b, last).0, sender) == None <==> last == sender)
  {
    hide C.Valid, C.Disconnect, C.FindClient, C.IdOf;
    C.DisconnectKeeps(b, last);
    ConnectedAre(b, sender);
    ConnectedAre(C.Disconnect(b, last).0, sender);
  }

  /** Two players: one presses a key, the other's datagram arrives before the handler
      has come to it, and the other one's player moves. */
  lemma ActsForSomebodyElse(d: Desk, one: C.Endpoint, other: C.Endpoint, data: string)
    requires DeskOk(d) && d.queue == [] && d.hand == None && d.running && one != other
    requires C.IdOf(d.book, one).Some? && C.IdOf(d.book, other).Some?
    ensures var right := [16 as char];
            var moves := [Incoming(Datagram(one, right)), Incoming(Datagram(other, data)), TakePacket, HandlePacket];
            && AllMovesPossible(d, moves)
            && After(d, moves).actions == d.actions + [Action(C.IdOf(d.book, other).value, 2, false)]
            && C.IdOf(d.book, other) != C.IdOf(d.book, one)
  {
    hide C.Valid, C.FindClient, C.IdOf;
    var right := [16 as char];
    var moves := [Incoming(Datagram(one, right)), Incoming(Datagram(other, data)), TakePacket, HandlePacket];
    SameIdSameEndpoint(d.book, one, other);
    assert moves[..3][..2] == moves[..2] && moves[..2][..1] == moves[..1] && moves[..1][..0] == [];
    assert AllMovesPossible(d, moves[..1]) && After(d, moves[..1]) == Moved(d, moves[0]);
    assert AllMovesPossible(d, moves[..2]) && After(d, moves[..2]) == Moved(After(d, moves[..1]), moves[1]);
    assert AllMovesPossible(d, moves[..3]) && After(d, moves[..3]) == Moved(After(d, moves[..2]), moves[2]);
  }

  // ----- What the keys and the connections mean, byte by byte -----

  lemma OneAction(a: Action, client: int)
    requires a.player == client
    ensures Net([a], client) == if a.code == 1 then (-3_000_000, 0) else if a.code == 2 then (3_000_000, 0)
                                else if a.code == 3 then (0, -3_000_000) else if a.code == 4 then (0, 3_000_000)
                                else (0, 0)
    ensures Presses([a], client, 5) == if a.code == 5 then 1 else 0
  {
    OnePress(a, client, 1);
    OnePress(a, client, 2);
    OnePress(a, client, 3);
    OnePress(a, client, 4);
    OnePress(a, client, 5);
  }

  lemma OnePress(a: Action, client: int, code: int)
    ensures Presses([a], client, code) == if a.player == client && a.code == code then 1 else 0
  {
    assert [a][..0] == [];
  }

  /** The keys: in a running game, from a connected client, the bytes 16 to 19 move its
      player by 3 to the right, to the left, up and down, and the byte 6 is a shot. No
      other packet is an action, nor is any before the game runs or from a stranger. */
  lemma KeysMean(d: Desk)
    requires d.hand.Some?
    ensures var data, acts := d.hand.value.data, Moved(d, HandlePacket).actions[|d.actions|..];
            var key, owner := if data == "" then 0 else data[0] as int, C.IdOf(d.book, d.last);
            && Moved(d, HandlePacket).actions[..|d.actions|] == d.actions
            && (if !d.running || owner == None then acts == []
                else if key == 16 then |acts| == 1 && Net(acts, owner.value) == (3_000_000, 0)
                else if key == 17 then |acts| == 1 && Net(acts, owner.value) == (-3_000_000, 0)
                else if key == 18 then |acts| == 1 && Net(acts, owner.value) == (0, -3_000_000)
                else if key == 19 then |acts| == 1 && Net(acts, owner.value) == (0, 3_000_000)
                else if key == 6 then
                  |acts| == 1 && Net(acts, owner.value) == (0, 0) && Presses(acts, owner.value, 5) == 1
                else acts == [])
  {
    hide C.IdOf, C.Connect, C.Disconnect, Net, Presses;
    var data := d.hand.value.data;
    var more := ActionFor(d.book, d.running, data, d.last);
    assert Moved(d, HandlePacket).actions[|d.actions|..] == more;
    if more != [] { OneAction(more[0], C.IdOf(d.book, d.last).value); }
  }

  /** The byte 1 connects: the answer tells whether the game runs (30) or not (31). The
      byte 2 disconnects: only a stranger is answered (0). Nothing else is answered. */
  lemma AnswersMean(b: C.Book, running: bool, data: string, e: C.Endpoint)
    requires C.Valid(b)
    ensures var key, replies := if data == "" then 0 else data[0] as int, RepliesTo(b, running, data, e);
            var sends := if key == 1 then Some(if running then 30 else 31)
                         else if key == 2 && C.IdOf(b, e) == None then Some(0) else None;
            && (sends == None ==> replies == [])
            && (sends.Some? ==> |replies| == 1 && replies[0].0 == e && ':' !in replies[0].1
                                && ParseFields(replies[0].1) == Some(Packet(sends.value, -1, -1_000_000, -1_000_000)))
    ensures var key, after := if data == "" then 0 else data[0] as int, BookAfter(b, data, e);
            && (key == 1 ==> C.IdOf(after, e).Some?) && (key == 2 ==> C.IdOf(after, e) == None)
            && (key != 1 && key != 2 ==> after == b)
  {
    hide C.Valid, C.Connect, C.Disconnect, C.FindClient, C.IdOf, ControlText, ParseFields;
    ControlRoundTrip(GAME_STARTED, -1);
    ControlRoundTrip(GAME_NOT_STARTED, -1);
    ControlRoundTrip(0, -1);
    C.ConnectKeeps(b, e);
    C.DisconnectKeeps(b, e);
    ConnectedAre(b, e);
    ConnectedAre(C.Connect(b, e).0, e);
    ConnectedAre(C.Disconnect(b, e).0, e);
  }

  /** The byte 3 starts the game, for good; no other packet does. */
  lemma StartMeans(d: Desk)
    requires d.hand.Some?
    ensures var data := d.hand.value.data;
            Moved(d, HandlePacket).running <==> d.running || (data != "" && data[0] as int == 3)
  {
  }
}

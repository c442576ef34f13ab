/** Clients that leave: when the game notices, when it does not, and what becomes
    of an identifier that is given to somebody else. */
module Leaving {
  import opened Options
  import opened World
  import opened Rules
  import opened Replication
  import opened Players
  import C = ClientIds

  lemma {:induction false} GoneAre(previous: seq<int>, current: seq<int>)
    ensures forall c :: c in Gone(previous, current) <==> c in previous && c !in current
  {
    if previous != [] {
      var front, last := previous[..|previous| - 1], previous[|previous| - 1];
      GoneAre(front, current);
      assert previous == front + [last];
    }
  }

  lemma {:induction false} RemoveAllOwners(g: Game, clients: seq<int>)
    ensures forall c :: c in RemoveAll(g, clients).owner <==> c in g.owner && c !in clients
  {
    if clients != [] {
      var front, last := clients[..|clients| - 1], clients[|clients| - 1];
      RemoveAllOwners(g, front);
      assert clients == front + [last];
    }
  }

  /** A client's player is removed exactly when fewer clients are connected than at
      the last check, the client was there then, and it is not there now. */
  lemma RemovedExactlyWhen(g: Game, current: seq<int>, client: int)
    requires Sound(g) && client in g.owner
    ensures var b := CheckDisconnected(g, current);
            && (client !in b.owner <==> |current| < |g.previous| && client in g.previous && client !in current)
            && (client !in b.owner ==> g.owner[client] !in b.entities)
  {
    hide RemoveAll;
    GoneAre(g.previous, current);
    RemoveAllOwners(g, Gone(g.previous, current));
    RemoveAllBook(g, Gone(g.previous, current));
  }

  /** A client that leaves and is replaced between two checks is not missed: its
      player stays, whoever the newcomer is. */
  lemma ReplacedKeepsItsPlayer(b: C.Book, leaver: C.Endpoint, newcomer: C.Endpoint, g: Game)
    requires C.Valid(b) && C.IdOf(b, leaver).Some?
    requires newcomer == leaver || C.IdOf(b, newcomer) == None
    requires g.previous == C.Connected(b)
    ensures var after := C.Connect(C.Disconnect(b, leaver).0, newcomer).0;
            CheckDisconnected(g, C.Connected(after)) == g.(previous := C.Connected(after))
  {
    hide C.Connect, C.Disconnect, C.FindClient, C.Connected, C.Partition;
    var left := C.Disconnect(b, leaver).0;
    C.DisconnectKeeps(b, leaver);
    C.ConnectKeeps(left, newcomer);
    var after := C.Connect(left, newcomer).0;
    C.ReplacementCounts(b, leaver, newcomer);
    C.ConnectedCount(b);
    C.ConnectedCount(after);
  }

  // ----- Recycled identifiers -----

  lemma {:induction false} ActAllBook(g: Game, actions: seq<Action>)
    ensures ActAll(g, actions).owner == g.owner && ActAll(g, actions).spawned == g.spawned
  {
    if actions != [] { ActAllBook(g, actions[..|actions| - 1]); }
  }

  lemma {:induction false} NewOwnersAreNew(g: Game, players: int)
    ensures var b := InitializePlayers(g, players);
            g.spawned <= b.spawned && forall c :: c in b.owner && c < g.spawned ==> c in g.owner
    decreases players - g.spawned
  {
    if g.spawned < players { NewOwnersAreNew(SpawnPlayer(g), players); }
  }

  /** No update gives a player to an identifier that has had its player before. */
  lemma UpdateOwnsNoOld(g: Game, input: Input, client: int)
    requires Sound(g) && client < g.spawned && client !in g.owner
    ensures client < Update(g, input).spawned && client !in Update(g, input).owner
  {
    hide InitializePlayers, ActAll, RemoveAll, Update, Sound, Step, Since, Survives;
    var g1 := Joined(g, input);
    var g2 := ProcessActions(g1);
    NewOwnersAreNew(Begin(g), input.players);
    ActAllBook(g1, g1.actions);
    CheckedStep(g, input);
    SoundOwners(g2);
    RemoveAllBook(g2, Gone(g2.previous, input.clients));
    CheckedBook(g, input);
  }

  lemma SoundOwners(g: Game)
    requires Sound(g)
    ensures OwnersOk(g)
  {
  }

  lemma TurnOwnsNoOld(s: Sender, t: Turn, client: int)
    requires ServerOk(s) && client < s.game.spawned && client !in s.game.owner
    ensures client < Updated(s, t).spawned && client !in Updated(s, t).owner
  {
    hide Update;
    TurnStep(s, t);
    AddAllKeeps(s.game, t.arrivals);
    UpdateOwnsNoOld(AddAll(s.game, t.arrivals), t.input, client);
  }

  /** Once the player of an identifier has been removed, no run ever gives that
      identifier a player again: a client that is handed it stays a spectator. */
  lemma {:induction false} NeverOwnsAgain(s: Sender, turns: seq<Turn>, client: int)
    requires ServerOk(s) && client < s.game.spawned && client !in s.game.owner
    ensures client < RunServer(s, turns).game.spawned && client !in RunServer(s, turns).game.owner
  {
    hide Next, ServerOk, Updated;
    if turns != [] {
      var front, t := turns[..|turns| - 1], turns[|turns| - 1];
      RunKeepsServer(s, front);
      NeverOwnsAgain(s, front, client);
      TurnOwnsNoOld(RunServer(s, front), t, client);
      NextGame(RunServer(s, front), t);
    }
  }

  // ----- Who gets a player -----

  ghost predicate OwnersBelow(g: Game, n: int) { forall c :: c in g.owner <==> 0 <= c < n }

  lemma {:induction false} FirstOwners(g: Game, players: int)
    requires Sound(g) && OwnersBelow(g, g.spawned)
    ensures OwnersBelow(InitializePlayers(g, players), if players > g.spawned then players else g.spawned)
    decreases players - g.spawned
  {
    if g.spawned < players {
      var s := SpawnPlayer(g);
      assert s.spawned == g.spawned + 1 && s.owner == g.owner[g.spawned := g.nextId];
      PlayerOwnersOk(g);
      FirstOwners(s, players);
    }
  }

  /** When the game starts, every connected client gets a player exactly when the
      connected identifiers are the lowest ones: keys are handed out by counting. */
  lemma EveryClientPlays(limits: Limits, b: C.Book)
    requires C.Valid(b)
    ensures var g := InitializePlayers(Begin(InitialGame(limits)), |b.clients|);
            (forall c :: c in b.clients ==> c in g.owner) <==> forall f :: f in b.free ==> |b.clients| <= f
  {
    FirstOwners(Begin(InitialGame(limits)), |b.clients|);
    C.LowestIds(b);
  }
}

/** Players: each is owned by one client, only that client's actions move it, and
    its position is its start plus the sum of those actions. */
module Players {
  import opened Protocol
  import opened World
  import opened Rules
  import opened Steps
  import opened Updates
  import opened Replication
  import opened LateJoin
  import opened Stages

  /** One action more: what it adds to a client's way. */
  lemma NetPush(actions: seq<Action>, client: int)
    requires actions != []
    ensures var front, a := actions[..|actions| - 1], actions[|actions| - 1];
            Net(actions, client)
            == if a.player == client then (Net(front, client).0 + ActionMove(a.code).0,
                                           Net(front, client).1 + ActionMove(a.code).1)
               else Net(front, client)
  {
  }

  /** An entity owned by a client is moved by that client's actions only. */
  lemma {:induction false} ActAllMoves(g: Game, actions: seq<Action>, client: int, id: int)
    requires IdsOk(g) && OwnersOk(g) && Owns(g, client, id)
    ensures var b := ActAll(g, actions);
            && IdsOk(b) && b.owner == g.owner && g.nextId <= b.nextId && Owns(b, client, id)
            && b.entities[id] == Moved(g.entities[id], Net(actions, client).0, Net(actions, client).1)
  {
    hide OwnersOk, Net;
    if actions == [] {
      NetNothing(client);
    } else {
      var a := actions[|actions| - 1];
      var front := ActAll(g, actions[..|actions| - 1]);
      ActAllMoves(g, actions[..|actions| - 1], client, id);
      OwnersDiffer(g, a.player, client);
      ActMoves(front, a, client, id);
      NetPush(actions, client);
    }
  }

  lemma OwnersDiffer(g: Game, c: int, d: int)
    requires OwnersOk(g)
    ensures c in g.owner && d in g.owner && g.owner[c] == g.owner[d] ==> c == d
  {
  }

  lemma ActMoves(g: Game, a: Action, client: int, id: int)
    requires IdsOk(g) && Owns(g, client, id)
    requires a.player in g.owner && g.owner[a.player] == id ==> a.player == client
    ensures var b := Act(g, a);
            && IdsOk(b) && b.owner == g.owner && g.nextId <= b.nextId && Owns(b, client, id)
            && b.entities[id]
               == if a.player == client then Moved(g.entities[id], ActionMove(a.code).0, ActionMove(a.code).1)
                  else g.entities[id]
  {
  }

  /** No client's action touches an entity that no client owns: enemies, bosses,
      bullets, and players left behind stay as they are. */
  lemma {:induction false} ActAllSpares(g: Game, actions: seq<Action>, id: int)
    requires IdsOk(g) && id in g.entities && forall c :: c in g.owner ==> g.owner[c] != id
    ensures var b := ActAll(g, actions);
            && IdsOk(b) && b.owner == g.owner && g.nextId <= b.nextId
            && id in b.entities && b.entities[id] == g.entities[id]
  {
    if actions != [] {
      ActAllSpares(g, actions[..|actions| - 1], id);
    }
  }

  /** A disconnection kills the client's own entity and nothing else. */
  lemma DisconnectionIsOwn(g: Game, client: int)
    requires Sound(g)
    ensures var b := RemovePlayer(g, client);
            && (forall id :: id in b.entities ==> id in g.entities && b.entities[id] == g.entities[id])
            && (forall id :: id in g.entities && id !in b.entities ==>
                  Owns(g, client, id) && g.entities[id].kind == Player)
            && (forall c :: c in b.owner <==> c in g.owner && c != client)
  {
  }

  // ----- The action queue -----

  ghost predicate Waiting(actions: seq<Action>) {
    forall i :: 0 <= i < |actions| ==> !actions[i].processed
  }

  /** The queue after processing holds the unknown actions, in order, still waiting. */
  lemma {:induction false} KnownAreConsumed(actions: seq<Action>)
    requires Waiting(actions)
    ensures Unprocessed(SeenAll(actions)) == Unknown(actions) && Waiting(Unknown(actions))
  {
    if actions != [] {
      KnownAreConsumed(actions[1..]);
      assert SeenAll(actions)[1..] == SeenAll(actions[1..]);
    }
  }

  lemma {:induction false} UnknownMovesNothing(actions: seq<Action>, client: int)
    requires forall i :: 0 <= i < |actions| ==> !Known(actions[i].code)
    ensures Net(actions, client) == (0, 0)
  {
    hide Net;
    if actions == [] {
      NetNothing(client);
    } else {
      UnknownMovesNothing(actions[..|actions| - 1], client);
      NetPush(actions, client);
    }
  }

  lemma {:induction false} UnknownAreUnknown(actions: seq<Action>)
    ensures forall i :: 0 <= i < |Unknown(actions)| ==> !Known(Unknown(actions)[i].code)
  {
    if actions != [] { UnknownAreUnknown(actions[1..]); }
  }

  // ----- Bookkeeping of the other stages -----

  /** The queue, the owners and the number of players are untouched. */
  predicate NoBook(a: Game, b: Game) { b.actions == a.actions && b.owner == a.owner && b.spawned == a.spawned }

  lemma {:induction false} SpawnManyBook(g: Game, kind: Kind, n: nat, place: int -> (int, int))
    requires kind != Player
    ensures NoBook(g, SpawnMany(g, kind, n, place))
  {
    if n > 0 { SpawnManyBook(g, kind, n - 1, place); }
  }

  lemma {:induction false} EnemyTurnsBook(g: Game, rolls: int -> bool, n: nat)
    ensures NoBook(g, EnemyTurns(g, rolls, n))
  {
    hide EnemyBullets;
    if n > 0 { EnemyTurnsBook(g, rolls, n - 1); }
  }

  lemma {:induction false} BossTurnsBook(g: Game, input: Input, n: nat)
    ensures NoBook(g, BossTurns(g, input, n))
  {
    hide EnemyBullets;
    if n > 0 { BossTurnsBook(g, input, n - 1); }
  }

  lemma CollideBook(g: Game, r: Reach)
    ensures NoBook(g, Collide(g, r))
  {
    hide FirstHit;
  }

  lemma {:induction false} RemoveAllBook(g: Game, clients: seq<int>)
    requires OwnersOk(g)
    ensures var b := RemoveAll(g, clients);
            && OwnersOk(b) && b.actions == g.actions && b.spawned == g.spawned
            && (forall c :: c in b.owner ==> c in g.owner && b.owner[c] == g.owner[c])
            && (forall c :: c in g.owner && c !in b.owner ==> g.owner[c] !in b.entities)
  {
    if clients != [] {
      RemoveAllBook(g, clients[..|clients| - 1]);
    }
  }

  lemma {:induction false} InitializePlayersBook(g: Game, players: int)
    requires Sound(g)
    ensures var b := InitializePlayers(g, players);
            b.actions == g.actions && forall c :: c in g.owner ==> c in b.owner && b.owner[c] == g.owner[c]
    decreases players - g.spawned
  {
    if g.spawned < players {
      PlayerOwnersOk(g);
      InitializePlayersBook(SpawnPlayer(g), players);
    }
  }

  /** The state once the players of the connected clients are there. */
  function Joined(g: Game, input: Input): Game { InitializePlayers(Begin(g), input.players) }

  /** The state once the disconnected clients' players are gone. */
  function Checked(g: Game, input: Input): Game {
    CheckDisconnected(ProcessActions(Joined(g, input)), input.clients)
  }

  lemma CheckedBook(g: Game, input: Input)
    ensures NoBook(Checked(g, input), Update(g, input))
  {
    hide InitializePlayers, ProcessActions, CheckDisconnected, Collide, SpawnMany, EnemyTurns, BossTurns;
    var g3 := Checked(g, input);
    SpawnManyBook(g3, Enemy, g3.limits.enemiesPerWave, input.place);
    SpawnManyBook(g3, Boss, g3.limits.bosses, input.place);
    var o := Opening(g, input);
    assert NoBook(g3, o);
    var f := Fly(Collide(o, BULLET_ENEMY), Bullet);
    CollideBook(o, BULLET_ENEMY);
    EnemyTurnsBook(f, input.enemyShoots, f.nextId);
    CollideBook(MoveEnemies(f, input.enemyTick, input.enemyShoots), SHOT_PLAYER);
    var q := Middle(g, input);
    assert NoBook(o, q);
    var c := Collide(q, BULLET_BOSS);
    CollideBook(q, BULLET_BOSS);
    BossTurnsBook(c, input, c.nextId);
  }

  lemma CheckedStep(g: Game, input: Input)
    requires Sound(g)
    ensures var b, g1, g3 := Begin(g), Joined(g, input), Checked(g, input);
            && Sound(b) && Sound(g1) && Sound(ProcessActions(g1)) && Sound(g3)
            && Survives(b, g1, {}) && Survives(g1, ProcessActions(g1), {Player}) && Survives(ProcessActions(g1), g3, {})
            && Step(b, g3, Update(g, input), {Bullet, Enemy, Boss, EnemyBullet})
            && Since(b, g3)
  {
    hide Step, Sound, Since, Survives, InitializePlayers, ProcessActions, CheckDisconnected, SpawnHostiles, Opening;
    hide Collide, Fly, Update, MoveEnemies;
    BeginSound(g);
    var b, g1 := Begin(g), Joined(g, input);
    var g2 := ProcessActions(g1);
    var g3 := Checked(g, input);
    InitializePlayersStep(b, b, input.players);
    Sounds(b, b, g1, {});
    ProcessActionsStep(b, g1);
    Sounds(b, g1, g2, {Player});
    CheckDisconnectedStep(b, g2, input.clients);
    Sounds(b, g2, g3, {});
    SoundCounters(g3);
    SpawnHostilesStep(b, g3, input.place);
    OpeningIs(g, input);
    var o := Opening(g, input);
    var c := Collide(o, BULLET_ENEMY);
    CollideStep(b, o, BULLET_ENEMY);
    BeforeBulletsFlyStep(g, input);
    FlyStep(b, c, Bullet);
    AfterBulletsFlyStep(g, input);
    Compose(b, g3, o, c, {}, {Boss});
    Compose(b, g3, c, Fly(c, Bullet), {} + {Boss}, {Bullet});
    Compose(b, g3, Fly(c, Bullet), Update(g, input), {} + {Boss} + {Bullet}, {Enemy, Boss, EnemyBullet});
    assert {} + {Boss} + {Bullet} + {Enemy, Boss, EnemyBullet} == {Bullet, Enemy, Boss, EnemyBullet};
  }

  lemma SoundCounters(g: Game)
    requires Sound(g)
    ensures g.wave <= g.limits.waves && g.boss <= g.limits.bosses
  {
  }

  lemma OpeningIs(g: Game, input: Input)
    ensures Opening(g, input) == SpawnHostiles(Checked(g, input), input.place)
  {
  }

  lemma ProcessedPlayer(g: Game, client: int, id: int)
    requires Sound(g) && Owns(g, client, id)
    ensures var b := ProcessActions(g);
            && Owns(b, client, id)
            && b.entities[id] == Moved(g.entities[id], Net(g.actions, client).0, Net(g.actions, client).1)
  {
    hide ActAll, Net;
    ActAllMoves(g, g.actions, client, id);
  }

  /** A player that outlives the check for disconnections is still owned, and untouched. */
  lemma CheckedPlayer(g: Game, clients: seq<int>, client: int, id: int)
    requires Sound(g) && Owns(g, client, id) && id in CheckDisconnected(g, clients).entities
    ensures Owns(CheckDisconnected(g, clients), client, id)
  {
    hide RemoveAll;
    RemoveAllBook(g, Gone(g.previous, clients));
  }

  lemma OwnedPlayer(g: Game, client: int, id: int)
    requires Sound(g) && Owns(g, client, id)
    ensures 0 <= id < g.nextId && g.entities[id].kind == Player
  {
  }

  /** One update: a player that outlives it has moved by its client's queued
      actions, and that client still owns it. */
  lemma PlayerTurn(g: Game, input: Input, client: int, id: int)
    requires Sound(g) && Owns(Joined(g, input), client, id) && id in Update(g, input).entities
    ensures Update(g, input).entities[id]
            == Moved(Joined(g, input).entities[id], Net(g.actions, client).0, Net(g.actions, client).1)
    ensures Owns(Update(g, input), client, id)
  {
    hide InitializePlayers, ProcessActions, CheckDisconnected, Update, Since, Step, Sound, Survives, Net;
    var g1 := Joined(g, input);
    var g2, g3, u := ProcessActions(g1), Checked(g, input), Update(g, input);
    CheckedStep(g, input);
    Sounds(Begin(g), g3, u, {Bullet, Enemy, Boss, EnemyBullet});
    InitializePlayersBook(Begin(g), input.players);
    ProcessedPlayer(g1, client, id);
    OwnedPlayer(g2, client, id);
    SurvivesIds(g2, g3, {});
    SurvivesAs(g3, u, {Bullet, Enemy, Boss, EnemyBullet}, id);
    SurvivesAs(g2, g3, {}, id);
    CheckedPlayer(g2, input.clients, client, id);
    CheckedBook(g, input);
    BeginSound(g);
  }

  /** The queue after an update: what the update did not know, in order. */
  lemma QueueTurn(g: Game, input: Input)
    requires Sound(g) && Waiting(g.actions)
    ensures Update(g, input).actions == Unknown(g.actions) && Waiting(Unknown(g.actions))
  {
    hide InitializePlayers, ActAll, Update, Step;
    var g1 := Joined(g, input);
    BeginSound(g);
    CheckedStep(g, input);
    InitializePlayersBook(Begin(g), input.players);
    RemoveAllBook(ProcessActions(g1), Gone(g1.previous, input.clients));
    CheckDisconnectedActions(ProcessActions(g1), input.clients);
    CheckedBook(g, input);
    KnownAreConsumed(g.actions);
  }

  lemma CheckDisconnectedActions(g: Game, current: seq<int>)
    requires OwnersOk(g)
    ensures CheckDisconnected(g, current).actions == g.actions
  {
    RemoveAllBook(g, Gone(g.previous, current));
  }

  /** A new client's player starts at its own place on the left. */
  lemma {:induction false} SpawnPoints(g: Game, players: int, client: int)
    requires Sound(g) && g.spawned <= client < players
    ensures var b := InitializePlayers(g, players);
            && client in b.owner && b.owner[client] == g.nextId + (client - g.spawned) && b.owner[client] in b.entities
            && b.entities[b.owner[client]] == Entity(Player, 100_000_000 * (client + 1), 100_000_000, 1)
    decreases players - g.spawned
  {
    var s := SpawnPlayer(g);
    PlayerOwnersOk(g);
    if client == g.spawned {
      InitializePlayersBook(s, players);
      InitializePlayersKeeps(s, players, g.nextId);
    } else {
      SpawnPoints(s, players, client);
    }
  }

  lemma {:induction false} InitializePlayersKeeps(g: Game, players: int, id: int)
    requires IdsOk(g) && id in g.entities
    ensures id in InitializePlayers(g, players).entities
    ensures InitializePlayers(g, players).entities[id] == g.entities[id]
    decreases players - g.spawned
  {
    if g.spawned < players { InitializePlayersKeeps(SpawnPlayer(g), players, id); }
  }

  // ----- Along a run -----

  function Acts(arrivals: seq<(int, int)>): seq<Action> {
    if arrivals == [] then []
    else Acts(arrivals[..|arrivals| - 1]) + [Action(arrivals[|arrivals| - 1].0, arrivals[|arrivals| - 1].1, false)]
  }

  /** Every action that arrives in a run, in order. */
  function Arrived(turns: seq<Turn>): seq<Action> {
    if turns == [] then [] else Arrived(turns[..|turns| - 1]) + Acts(turns[|turns| - 1].arrivals)
  }

  lemma {:induction false} NetAppend(a: seq<Action>, b: seq<Action>, client: int)
    ensures Net(a + b, client) == (Net(a, client).0 + Net(b, client).0, Net(a, client).1 + Net(b, client).1)
  {
    hide Net;
    if b == [] {
      assert a + b == a;
      NetNothing(client);
    } else {
      assert (a + b)[..|a + b| - 1] == a + b[..|b| - 1];
      NetAppend(a, b[..|b| - 1], client);
      NetPush(a + b, client);
      NetPush(b, client);
    }
  }

  lemma {:induction false} AddAllActions(g: Game, arrivals: seq<(int, int)>)
    ensures AddAll(g, arrivals).actions == g.actions + Acts(arrivals)
    ensures forall i :: 0 <= i < |Acts(arrivals)| ==> !Acts(arrivals)[i].processed
  {
    if arrivals != [] { AddAllActions(g, arrivals[..|arrivals| - 1]); }
  }

  /** A queue between updates: nothing processed, nothing known. */
  ghost predicate Leftover(actions: seq<Action>) {
    Waiting(actions) && forall i :: 0 <= i < |actions| ==> !Known(actions[i].code)
  }

  lemma QueueStays(s: Sender, t: Turn)
    requires ServerOk(s) && Leftover(s.game.actions)
    ensures Leftover(Updated(s, t).actions)
  {
    hide Update;
    TurnStep(s, t);
    AddAllActions(s.game, t.arrivals);
    var a := AddAll(s.game, t.arrivals);
    QueueTurn(a, t.input);
    UnknownAreUnknown(a.actions);
  }

  lemma OwnedTurn(s: Sender, t: Turn, client: int, id: int)
    requires ServerOk(s) && Leftover(s.game.actions)
    requires Owns(s.game, client, id) && id in Updated(s, t).entities
    ensures Owns(Updated(s, t), client, id)
    ensures var (x, y) := Net(Acts(t.arrivals), client);
            Updated(s, t).entities[id] == Moved(s.game.entities[id], x, y)
  {
    hide Update, InitializePlayers, Net;
    TurnStep(s, t);
    AddAllKeeps(s.game, t.arrivals);
    AddAllActions(s.game, t.arrivals);
    var a := AddAll(s.game, t.arrivals);
    InitializePlayersBook(Begin(a), t.input.players);
    InitializePlayersKeeps(Begin(a), t.input.players, id);
    PlayerTurn(a, t.input, client, id);
    NetAppend(s.game.actions, Acts(t.arrivals), client);
    UnknownMovesNothing(s.game.actions, client);
  }

  /** Along every run, a player that is owned and lives on stays its client's,
      and is where it started plus 3 for each right or down and minus 3 for each
      left or up among the actions of that client, whoever else sent actions. */
  lemma {:induction false} MotionOn(s: Sender, turns: seq<Turn>, client: int, id: int)
    requires ServerOk(s) && Leftover(s.game.actions)
    requires Owns(s.game, client, id) && id in RunServer(s, turns).game.entities
    ensures Leftover(RunServer(s, turns).game.actions) && Owns(RunServer(s, turns).game, client, id)
    ensures var (x, y) := Net(Arrived(turns), client);
            RunServer(s, turns).game.entities[id] == Moved(s.game.entities[id], x, y)
  {
    hide Next, ServerOk, Updated, Leftover, Net, Acts;
    if turns == [] {
      NetNothing(client);
    } else {
      var front, t := turns[..|turns| - 1], turns[|turns| - 1];
      var before := RunServer(s, front);
      RunKeepsServer(s, front);
      NextGame(before, t);
      OldId(s, client, id);
      TurnSurvivor(before, t, id);
      MotionOn(s, front, client, id);
      QueueStays(before, t);
      OwnedTurn(before, t, client, id);
      NetAppend(Arrived(front), Acts(t.arrivals), client);
    }
  }

  lemma NetNothing(client: int)
    ensures Net([], client) == (0, 0)
  {
  }

  lemma OldId(s: Sender, client: int, id: int)
    requires ServerOk(s) && Owns(s.game, client, id)
    ensures id < s.game.nextId
  {
  }

  // ----- From the spawn on -----

  /** The queue of actions between the updates of a run. */
  lemma {:induction false} QueueAlongRun(s: Sender, turns: seq<Turn>)
    requires ServerOk(s) && Leftover(s.game.actions)
    ensures Leftover(RunServer(s, turns).game.actions)
  {
    hide Next, ServerOk, Updated, Leftover;
    if turns != [] {
      var front, t := turns[..|turns| - 1], turns[|turns| - 1];
      RunKeepsServer(s, front);
      QueueAlongRun(s, front);
      QueueStays(RunServer(s, front), t);
      NextGame(RunServer(s, front), t);
    }
  }

  lemma JoinedIds(g: Game, input: Input)
    requires Sound(g)
    ensures Joined(g, input).nextId <= Update(g, input).nextId && Sound(Joined(g, input))
  {
    hide InitializePlayers, ProcessActions, CheckDisconnected, Update, Since, Sound;
    CheckedStep(g, input);
    Sounds(Begin(g), Checked(g, input), Update(g, input), {Bullet, Enemy, Boss, EnemyBullet});
  }

  lemma OwnedId(g: Game, client: int)
    requires Sound(g) && client in g.owner
    ensures 0 <= g.owner[client] < g.nextId
  {
  }

  /** A player that lives is so far from its client's spawn point. */
  predicate StandsAt(g: Game, client: int, id: int, offset: (int, int)) {
    id in g.entities
    && g.entities[id] == Entity(Player, 100_000_000 * (client + 1) + offset.0, 100_000_000 + offset.1, 1)
  }

  /** The identifier a client's player gets: players spawn one after the other. */
  function SpawnedFor(g: Game, client: int): int { g.nextId + (client - g.spawned) }

  /** The turn in which a client's player spawns: its queued actions act at once. */
  lemma SpawningTurn(s: Sender, t: Turn, client: int)
    requires ServerOk(s) && Leftover(s.game.actions) && s.game.spawned <= client < t.input.players
    ensures var id := SpawnedFor(s.game, client);
            && 0 <= id < Updated(s, t).nextId
            && (id in Updated(s, t).entities ==>
                  Owns(Updated(s, t), client, id) && StandsAt(Updated(s, t), client, id, Net(Acts(t.arrivals), client)))
  {
    hide Update, InitializePlayers, Net, Sound, OwnersOk;
    TurnStep(s, t);
    AddAllKeeps(s.game, t.arrivals);
    AddAllActions(s.game, t.arrivals);
    var a := AddAll(s.game, t.arrivals);
    var id := SpawnedFor(s.game, client);
    SpawnPoints(Begin(a), t.input.players, client);
    JoinedIds(a, t.input);
    OwnedId(Joined(a, t.input), client);
    NetAppend(s.game.actions, Acts(t.arrivals), client);
    UnknownMovesNothing(s.game.actions, client);
    if id in Update(a, t.input).entities {
      PlayerTurn(a, t.input, client, id);
    }
  }

  /** The motion law. Over every run of the game, a player spawned for a client in
      some turn and still alive is at its spawn point plus 3 for each right or down
      and minus 3 for each left or up among the actions its client sent from that
      turn on, and it is still its client's. */
  lemma MotionLaw(limits: Limits, connected: nat, before: seq<Turn>, t: Turn, later: seq<Turn>, client: int)
    requires var s := RunServer(InitialServer(limits, connected), before);
             && s.game.spawned <= client < t.input.players
             && SpawnedFor(s.game, client) in RunServer(Next(s, t), later).game.entities
    ensures var s := RunServer(InitialServer(limits, connected), before);
            var id, g := SpawnedFor(s.game, client), RunServer(Next(s, t), later).game;
            Owns(g, client, id) && StandsAt(g, client, id, Net(Acts(t.arrivals) + Arrived(later), client))
  {
    hide RunServer, Next, ServerOk, Updated, Leftover, Net, Acts;
    var start := InitialServer(limits, connected);
    StartLeftover(limits, connected);
    var s := RunServer(start, before);
    RunKeepsServer(start, before);
    QueueAlongRun(start, before);
    SpawningTurn(s, t, client);
    TurnKeepsServer(s, t);
    QueueStays(s, t);
    NextGame(s, t);
    var id := SpawnedFor(s.game, client);
    RunSurvivor(Next(s, t), later, id);
    MotionOn(Next(s, t), later, client, id);
    NetAppend(Acts(t.arrivals), Arrived(later), client);
  }

  lemma StartLeftover(limits: Limits, connected: nat)
    ensures var s := InitialServer(limits, connected); ServerOk(s) && Leftover(s.game.actions)
  {
  }
}

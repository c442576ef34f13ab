/** What each stage of an update does, said of the entities, the counters and the
    announcements, with the numbers of the game and without the functions that
    compute it: the reference every stage is measured by. Positions are in millionths. */
module Stages {
  import opened Protocol
  import opened World
  import Rules

  // ----- Entities and announcements -----

  function OfKind(g: Game, kind: Kind): set<int> { set id | id in g.entities && g.entities[id].kind == kind }

  /** The number of members below one. */
  function Rank(s: set<int>, id: int): nat { |set i | i in s && i < id| }

  /** The frame has `n` events more, behind those it had. */
  predicate Adds(a: Game, b: Game, n: nat) {
    |b.frame| == |a.frame| + n && b.frame[..|a.frame|] == a.frame
  }

  /** The `n`-th announcement of a stage that only announces creations: the creation and its mark. */
  predicate Announced(a: Game, b: Game, n: nat, e: Event) {
    var at := |a.frame| + 2 * n;
    at + 1 < |b.frame| && b.frame[at] == e && b.frame[at + 1] == Important
  }

  /** The entities are the old ones, untouched, and `n` new ones under the next identifiers. */
  ghost predicate OldAndNew(a: Game, b: Game, n: nat) {
    && b.nextId == a.nextId + n
    && (forall id :: id in b.entities <==> id in a.entities || a.nextId <= id < b.nextId)
    && forall id :: id in a.entities ==> id in b.entities && b.entities[id] == a.entities[id]
  }

  /** Nothing is told but the deaths of those that are gone, each of them. */
  ghost predicate Buries(a: Game, b: Game) {
    && |a.frame| <= |b.frame| && b.frame[..|a.frame|] == a.frame
    && (forall i :: |a.frame| <= i < |b.frame| ==> BuriedAt(a, b, i))
    && forall id :: id in a.entities && id !in b.entities ==> Delete(id) in b.frame[|a.frame|..]
  }

  predicate BuriedAt(a: Game, b: Game, i: nat)
    requires i < |b.frame|
  {
    match b.frame[i]
    case Important => true
    case Delete(id) => id in a.entities && id !in b.entities
    case _ => false
  }

  // ----- New players -----

  /** The `i`-th newcomer: the background, its player at its place on the left, its key. */
  ghost predicate JoinsAs(a: Game, b: Game, i: nat) {
    var client, id, x, at := a.spawned + i, a.nextId + i, 100_000_000 * (a.spawned + i + 1), |a.frame| + 3 * i;
    && id in b.entities && b.entities[id] == Entity(Player, x, 100_000_000, 1)
    && client in b.owner && b.owner[client] == id
    && at + 2 < |b.frame|
    && b.frame[at] == Background
    && b.frame[at + 1] == Create(Player, id, x, 100_000_000) && b.frame[at + 2] == Important
  }

  ghost predicate PlayersJoin(a: Game, b: Game, players: int) {
    var n := if players > a.spawned then players - a.spawned else 0;
    && b == a.(entities := b.entities, nextId := b.nextId, frame := b.frame, spawned := b.spawned, owner := b.owner)
    && b.spawned == a.spawned + n && OldAndNew(a, b, n) && Adds(a, b, 3 * n)
    && (forall c :: c in b.owner <==> c in a.owner || a.spawned <= c < b.spawned)
    && (forall c :: c in a.owner ==> c in b.owner && b.owner[c] == a.owner[c])
    && forall i: nat :: i < n ==> JoinsAs(a, b, i)
  }

  // ----- Actions -----

  /** How often a client has asked for an action. */
  function Presses(actions: seq<Action>, client: int, code: int): nat {
    if actions == [] then 0
    else
      var a := actions[|actions| - 1];
      Presses(actions[..|actions| - 1], client, code) + if a.player == client && a.code == code then 1 else 0
  }

  /** How far its actions move a player: 3 to the right for each right (2), to the
      left for each left (1), down for each down (4), up for each up (3). */
  function Net(actions: seq<Action>, client: int): (int, int) {
    (3_000_000 * (Presses(actions, client, 2) - Presses(actions, client, 1)),
     3_000_000 * (Presses(actions, client, 4) - Presses(actions, client, 3)))
  }

  /** The actions nobody knows: all but 1 to 5. */
  function Unknown(actions: seq<Action>): seq<Action> {
    if actions == [] then []
    else (if 1 <= actions[0].code <= 5 then [] else [actions[0]]) + Unknown(actions[1..])
  }

  /** A live entity that a client owns. */
  ghost predicate Owns(g: Game, client: int, id: int) {
    client in g.owner && g.owner[client] == id && id in g.entities
  }

  /** The action is a shot (5) of a client with a live player. */
  predicate Fires(g: Game, a: Action) {
    a.code == 5 && a.player in g.owner && g.owner[a.player] in g.entities
  }

  function ShotsAmong(g: Game, actions: seq<Action>): nat {
    if actions == [] then 0
    else ShotsAmong(g, actions[..|actions| - 1]) + if Fires(g, actions[|actions| - 1]) then 1 else 0
  }

  /** The shot that the action number `i` fires: a bullet 50 to the right of and 25
      below the place its player has reached by then. */
  ghost predicate ShotAs(a: Game, b: Game, actions: seq<Action>, i: nat)
    requires i < |actions| && Fires(a, actions[i])
  {
    var client, r := actions[i].player, ShotsAmong(a, actions[..i]);
    var e, (dx, dy) := a.entities[a.owner[client]], Net(actions[..i], client);
    var id, x, y := a.nextId + r, e.x + dx + 50_000_000, e.y + dy + 25_000_000;
    && id in b.entities && b.entities[id] == Entity(Bullet, x, y, 1)
    && Announced(a, b, r, Create(Bullet, id, x, y))
  }

  ghost predicate ActionsAct(a: Game, b: Game, actions: seq<Action>) {
    var n := ShotsAmong(a, actions);
    && b == a.(entities := b.entities, nextId := b.nextId, frame := b.frame)
    && b.nextId == a.nextId + n && Adds(a, b, 2 * n)
    && (forall id :: id in b.entities <==> id in a.entities || a.nextId <= id < b.nextId)
    && (forall client, id :: Owns(a, client, id) ==>
          b.entities[id] == a.entities[id].(x := a.entities[id].x + Net(actions, client).0,
                                            y := a.entities[id].y + Net(actions, client).1))
    && (forall id :: id in a.entities && (forall c :: c in a.owner ==> a.owner[c] != id) ==>
          b.entities[id] == a.entities[id])
    && forall i: nat :: i < |actions| && Fires(a, actions[i]) ==> ShotAs(a, b, actions, i)
  }

  // ----- Leavers -----

  /** The client has left: the count has dropped, it was there, it is there no more. */
  predicate HasLeft(a: Game, clients: seq<int>, c: int) {
    |clients| < |a.previous| && c in a.previous && c !in clients
  }

  ghost predicate LeaversGo(a: Game, b: Game, clients: seq<int>) {
    && b == a.(entities := b.entities, frame := b.frame, owner := b.owner, previous := clients)
    && (forall c :: c in b.owner <==> c in a.owner && !HasLeft(a, clients, c))
    && (forall c :: c in b.owner ==> b.owner[c] == a.owner[c])
    && (forall id :: id in b.entities <==>
          id in a.entities && forall c :: c in a.owner && a.owner[c] == id ==> !HasLeft(a, clients, c))
    && (forall id :: id in b.entities ==> b.entities[id] == a.entities[id])
    && Buries(a, b)
  }

  // ----- Waves and bosses -----

  /** `n` new entities of a kind, at the places rolled, each announced. */
  ghost predicate Arrive(a: Game, b: Game, kind: Kind, lives: int, n: nat, place: int -> (int, int)) {
    && b == a.(entities := b.entities, nextId := b.nextId, frame := b.frame, wave := b.wave, boss := b.boss)
    && OldAndNew(a, b, n) && Adds(a, b, 2 * n)
    && forall i: nat :: i < n ==> ArrivesAs(a, b, kind, lives, i, place(i))
  }

  ghost predicate ArrivesAs(a: Game, b: Game, kind: Kind, lives: int, i: nat, place: (int, int)) {
    && a.nextId + i in b.entities && b.entities[a.nextId + i] == Entity(kind, place.0, place.1, lives)
    && Announced(a, b, i, Create(kind, a.nextId + i, place.0, place.1))
  }

  ghost predicate HostilesCome(a: Game, b: Game, place: int -> (int, int)) {
    if OfKind(a, Enemy) == {} && a.wave < a.limits.waves then
      Arrive(a, b, Enemy, 1, a.limits.enemiesPerWave, place) && b.wave == a.wave + 1 && b.boss == a.boss
    else if OfKind(a, Enemy) == {} && a.boss < a.limits.bosses then
      Arrive(a, b, Boss, 3, a.limits.bosses, place) && b.boss == a.boss + 1 && b.wave == a.wave
    else b == a
  }

  // ----- Collisions -----

  /** Two entities of the two kinds, closer than the distances on both axes. */
  predicate Touching(g: Game, i: int, j: int, one: Kind, other: Kind, dx: int, dy: int) {
    && i in g.entities && j in g.entities && g.entities[i].kind == one && g.entities[j].kind == other && i != j
    && -dx < g.entities[i].x - g.entities[j].x < dx && -dy < g.entities[i].y - g.entities[j].y < dy
  }

  /** The first such pair, by the first member, then by the second. */
  ghost predicate FirstTouching(g: Game, i: int, j: int, one: Kind, other: Kind, dx: int, dy: int) {
    && Touching(g, i, j, one, other, dx, dy)
    && forall c, d :: Touching(g, c, d, one, other, dx, dy) ==> i < c || (i == c && j <= d)
  }

  /** One life less, and gone with the last. */
  predicate Struck(a: Game, b: Game, id: int)
    requires id in a.entities
  {
    if a.entities[id].lives == 1 then id !in b.entities
    else id in b.entities && b.entities[id] == a.entities[id].(lives := a.entities[id].lives - 1)
  }

  function Obituary(g: Game, id: int): seq<Event>
    requires id in g.entities
  {
    if g.entities[id].lives == 1 then [Delete(id), Important] else []
  }

  ghost predicate StruckAre(a: Game, b: Game, i: int, j: int)
    requires i in a.entities && j in a.entities
  {
    && b == a.(entities := b.entities, frame := a.frame + Obituary(a, i) + Obituary(a, j))
    && Struck(a, b, i) && Struck(a, b, j)
    && forall id :: id != i && id != j ==>
         (id in b.entities <==> id in a.entities) && (id in a.entities ==> b.entities[id] == a.entities[id])
  }

  /** The first touching pair is struck; nothing happens where no pair touches. */
  ghost predicate FirstPairIsStruck(a: Game, b: Game, one: Kind, other: Kind, dx: int, dy: int) {
    || (b == a && forall i, j :: !Touching(a, i, j, one, other, dx, dy))
    || exists i, j :: FirstTouching(a, i, j, one, other, dx, dy) && StruckAre(a, b, i, j)
  }

  // ----- Bullets -----

  /** The player bullets fly 3 to the right, up to 1500. */
  ghost predicate BulletsFly(a: Game, b: Game) {
    && b == a.(entities := b.entities, frame := b.frame) && Buries(a, b)
    && (forall id :: id in b.entities <==>
          id in a.entities && !(a.entities[id].kind == Bullet && a.entities[id].x + 3_000_000 > 1500_000_000))
    && forall id :: id in b.entities ==>
         b.entities[id] == if a.entities[id].kind == Bullet then a.entities[id].(x := a.entities[id].x + 3_000_000)
                           else a.entities[id]
  }

  /** The enemy bullets fly 3 to the left, down to 0. */
  ghost predicate ShotsFly(a: Game, b: Game) {
    && b == a.(entities := b.entities, frame := b.frame) && Buries(a, b)
    && (forall id :: id in b.entities <==>
          id in a.entities && !(a.entities[id].kind == EnemyBullet && a.entities[id].x - 3_000_000 < 0))
    && forall id :: id in b.entities ==>
         b.entities[id] == if a.entities[id].kind == EnemyBullet then a.entities[id].(x := a.entities[id].x - 3_000_000)
                           else a.entities[id]
  }

  // ----- Enemies and bosses -----

  /** A move by 2: up, left, down or right. */
  function Pushed(e: Entity, heading: int): Entity {
    match heading
    case 0 => e.(y := e.y - 2_000_000)
    case 1 => e.(x := e.x - 2_000_000)
    case 2 => e.(y := e.y + 2_000_000)
    case 3 => e.(x := e.x + 2_000_000)
    case _ => e
  }

  /** The shot of a shooter, 50 to the left of and 25 above its new place. */
  ghost predicate ShotFrom(a: Game, b: Game, id: int, r: nat) {
    && id in b.entities && a.nextId + r in b.entities
    && var shot, x, y := a.nextId + r, b.entities[id].x - 50_000_000, b.entities[id].y - 25_000_000;
       b.entities[shot] == Entity(EnemyBullet, x, y, 1) && Announced(a, b, r, Create(EnemyBullet, shot, x, y))
  }

  function Shooters(s: set<int>, shoots: int -> bool): set<int> { set id | id in s && shoots(id) }

  function Room(g: Game, cap: nat): nat {
    var there := |OfKind(g, EnemyBullet)|;
    if there < cap then cap - there else 0
  }

  function Min(m: nat, n: nat): nat { if m < n then m else n }

  /** As many of the shooters fire as there is room below the cap, in the order of
      their identifiers, and nothing else is new. */
  ghost predicate Volley(a: Game, b: Game, shooters: set<int>, cap: nat) {
    var n := Min(|shooters|, Room(a, cap));
    && b.nextId == a.nextId + n && Adds(a, b, 2 * n)
    && (forall id :: id in b.entities <==> id in a.entities || a.nextId <= id < b.nextId)
    && forall id :: id in shooters && Rank(shooters, id) < n ==> ShotFrom(a, b, id, Rank(shooters, id))
  }

  /** A round of the enemies, `k` moves of single enemies after the start: 13 moves
      in one direction, then the next, each enemy making the next move. */
  ghost predicate EnemiesMarch(a: Game, b: Game, k: nat, shoots: int -> bool) {
    var enemies := OfKind(a, Enemy);
    var after := k + |enemies|;
    && b == a.(entities := b.entities, nextId := b.nextId, frame := b.frame,
               direction := (after / 13) % 4, distance := 2_000_000 * (after % 13))
    && (forall id :: id in a.entities ==>
          id in b.entities && b.entities[id] == if id in enemies
                                                then Pushed(a.entities[id], ((k + Rank(enemies, id)) / 13) % 4)
                                                else a.entities[id])
    && Volley(a, b, Shooters(enemies, shoots), a.limits.maxEnemyBullets)
  }

  /** A round of the bosses, each in the direction it rolls. */
  ghost predicate BossesMove(a: Game, b: Game, heading: int -> int, shoots: int -> bool) {
    var bosses := OfKind(a, Boss);
    && b == a.(entities := b.entities, nextId := b.nextId, frame := b.frame)
    && (forall id :: id in a.entities ==>
          id in b.entities && b.entities[id] == if id in bosses then Pushed(a.entities[id], heading(id) % 4)
                                                else a.entities[id])
    && Volley(a, b, Shooters(bosses, shoots), a.limits.maxEnemyBullets + 5)
  }

  // ----- The win, and the whole -----

  ghost predicate WinIsTold(a: Game, b: Game) {
    var won := a.wave == a.limits.waves && a.boss == a.limits.bosses && OfKind(a, Enemy) == {} && OfKind(a, Boss) == {};
    b == a.(frame := a.frame + if won then [Win] else [])
  }

  /** The states of an update, from the empty frame on, one after each stage. */
  datatype Course = Course(
    begun: Game, joined: Game, acted: Game, checked: Game, invaded: Game,
    struck: Game, flown: Game, marched: Game, shot: Game, landed: Game,
    wounded: Game, moved: Game, done: Game)

  /** The whole update; `k` is the number of moves of single enemies so far. */
  ghost predicate Account(c: Course, input: Rules.Input, k: nat) {
    && PlayersJoin(c.begun, c.joined, input.players)
    && c.acted.actions == Unknown(c.joined.actions)
    && ActionsAct(c.joined, c.acted.(actions := c.joined.actions), c.joined.actions)
    && LeaversGo(c.acted, c.checked, input.clients)
    && HostilesCome(c.checked, c.invaded, input.place)
    && FirstPairIsStruck(c.invaded, c.struck, Bullet, Enemy, 20_000_000, 40_000_000)
    && BulletsFly(c.struck, c.flown)
    && (if input.enemyTick then EnemiesMarch(c.flown, c.marched, k, input.enemyShoots) else c.marched == c.flown)
    && FirstPairIsStruck(c.marched, c.shot, EnemyBullet, Player, 30_000_000, 50_000_000)
    && ShotsFly(c.shot, c.landed)
    && FirstPairIsStruck(c.landed, c.wounded, Bullet, Boss, 50_000_000, 50_000_000)
    && (if input.bossTick then BossesMove(c.wounded, c.moved, input.bossHeading, input.bossShoots)
        else c.moved == c.wounded)
    && WinIsTold(c.moved, c.done)
  }
}

/** One update of the game, stage by stage, as functions of the state. What the
    clock, the random generator and the server decide is an input. */
module Rules {
  import opened Options
  import opened Text
  import opened Protocol
  import opened World

  /** The inputs of one update: the client count read first, the connected
      clients read later, whether the two move clocks fired, and the rolls.
      Rolls are indexed by the entity that rolls, places by the spawn's rank. */
  datatype Input = Input(
    players: int,
    clients: seq<int>,
    enemyTick: bool,
    bossTick: bool,
    enemyShoots: int -> bool,
    bossShoots: int -> bool,
    bossHeading: int -> int,
    place: int -> (int, int))

  function Moved(e: Entity, dx: int, dy: int): Entity { e.(x := e.x + dx, y := e.y + dy) }

  // ----- Players -----

  /** `initializeplayers`: one player for each client beyond those spawned so far. */
  function InitializePlayers(g: Game, players: int): Game
    decreases players - g.spawned
  {
    if players <= g.spawned then g else InitializePlayers(SpawnPlayer(g), players)
  }

  /** The entity a client owns, while it lives. */
  function OwnedBy(g: Game, player: int): Option<int> {
    if player in g.owner && g.owner[player] in g.entities then Some(g.owner[player]) else None
  }

  const STEP: int := 3 * MILLION

  /** The move of an action: 1 left, 2 right, 3 up, 4 down. */
  function ActionMove(code: int): (int, int) {
    if code == 1 then (-STEP, 0)
    else if code == 2 then (STEP, 0)
    else if code == 3 then (0, -STEP)
    else if code == 4 then (0, STEP)
    else (0, 0)
  }

  function PlayerMove(g: Game, player: int, code: int): Game {
    match OwnedBy(g, player)
    case None => g
    case Some(id) => Touch(g, id, Moved(g.entities[id], ActionMove(code).0, ActionMove(code).1))
  }

  function PlayerShoot(g: Game, player: int): Game {
    match OwnedBy(g, player)
    case None => g
    case Some(id) => Spawn(g, Bullet, g.entities[id].x, g.entities[id].y)
  }

  predicate Known(code: int) { 0 < code <= 5 }

  function Act(g: Game, a: Action): Game {
    if 0 < a.code < 5 then PlayerMove(g, a.player, a.code)
    else if a.code == 5 then PlayerShoot(g, a.player)
    else g
  }

  function ActAll(g: Game, actions: seq<Action>): Game {
    if actions == [] then g
    else Act(ActAll(g, actions[..|actions| - 1]), actions[|actions| - 1])
  }

  /** An action once the loop has seen it. */
  function Seen(a: Action): Action { if Known(a.code) then a.(processed := true) else a }

  /** `deletePlayerAction`: the actions not marked processed, in order. */
  function Unprocessed(actions: seq<Action>): seq<Action> {
    if actions == [] then []
    else (if actions[0].processed then [] else [actions[0]]) + Unprocessed(actions[1..])
  }

  function SeenAll(actions: seq<Action>): (r: seq<Action>)
    ensures |r| == |actions| && forall i :: 0 <= i < |r| ==> r[i] == Seen(actions[i])
  {
    seq(|actions|, i requires 0 <= i < |actions| => Seen(actions[i]))
  }

  function ProcessActions(g: Game): Game {
    ActAll(g, g.actions).(actions := Unprocessed(SeenAll(g.actions)))
  }

  /** `removePlayerEntity`. */
  function RemovePlayer(g: Game, client: int): Game {
    if client in g.owner then
      var k := Kill(g, g.owner[client]);
      k.(owner := k.owner - {client})
    else g
  }

  function RemoveAll(g: Game, clients: seq<int>): Game {
    if clients == [] then g
    else RemovePlayer(RemoveAll(g, clients[..|clients| - 1]), clients[|clients| - 1])
  }

  /** The clients of the last check that are gone now, in order. */
  function Gone(previous: seq<int>, current: seq<int>): seq<int> {
    if previous == [] then []
    else
      var last := previous[|previous| - 1];
      Gone(previous[..|previous| - 1], current) + if last in current then [] else [last]
  }

  /** `checkForDisconnectedPlayers`: only a lower client count triggers a removal. */
  function CheckDisconnected(g: Game, current: seq<int>): Game {
    if |current| >= |g.previous| then g.(previous := current)
    else RemoveAll(g, Gone(g.previous, current)).(previous := current)
  }

  // ----- Waves and bosses -----

  predicate Cleared(g: Game, kind: Kind) {
    forall id :: id in g.entities ==> g.entities[id].kind != kind
  }

  function SpawnMany(g: Game, kind: Kind, n: nat, place: int -> (int, int)): Game {
    if n == 0 then g
    else Spawn(SpawnMany(g, kind, n - 1, place), kind, place(n - 1).0, place(n - 1).1)
  }

  function SpawnWave(g: Game, place: int -> (int, int)): Game {
    var s := SpawnMany(g, Enemy, g.limits.enemiesPerWave, place);
    s.(wave := s.wave + 1)
  }

  function SpawnBosses(g: Game, place: int -> (int, int)): Game {
    var s := SpawnMany(g, Boss, g.limits.bosses, place);
    s.(boss := s.boss + 1)
  }

  function SpawnHostiles(g: Game, place: int -> (int, int)): Game {
    if !Cleared(g, Enemy) then g
    else if g.wave < g.limits.waves then SpawnWave(g, place)
    else if g.boss < g.limits.bosses then SpawnBosses(g, place)
    else g
  }

  // ----- Collisions -----

  datatype Reach = Reach(a: Kind, b: Kind, dx: int, dy: int)

  const BULLET_ENEMY := Reach(Bullet, Enemy, 20 * MILLION, 40 * MILLION)
  const SHOT_PLAYER := Reach(EnemyBullet, Player, 30 * MILLION, 50 * MILLION)
  const BULLET_BOSS := Reach(Bullet, Boss, 50 * MILLION, 50 * MILLION)

  function Abs(n: int): int { if n < 0 then -n else n }

  /** Two live entities of the two kinds, closer than the threshold on both axes. */
  predicate Hits(es: map<int, Entity>, r: Reach, a: int, b: int) {
    && a in es && b in es && a != b && es[a].kind == r.a && es[b].kind == r.b
    && Abs(es[a].x - es[b].x) < r.dx && Abs(es[a].y - es[b].y) < r.dy
  }

  /** The first partner below `n` that `a` hits. */
  function FirstPartner(es: map<int, Entity>, r: Reach, a: int, n: nat): Option<int> {
    if n == 0 then None
    else
      var before := FirstPartner(es, r, a, n - 1);
      if before.Some? then before else if Hits(es, r, a, n - 1) then Some(n - 1) else None
  }

  /** The first hitting pair with its first member below `n`, in the order of the two loops. */
  function FirstHit(es: map<int, Entity>, r: Reach, n: nat, bound: nat): Option<(int, int)> {
    if n == 0 then None
    else
      var before := FirstHit(es, r, n - 1, bound);
      if before.Some? then before
      else match FirstPartner(es, r, n - 1, bound)
           case None => None
           case Some(b) => Some((n - 1, b))
  }

  /** Losing a life, the life count being that of the snapshot. */
  function Strike(g: Game, id: int, e: Entity): Game {
    if e.lives == 1 then Kill(g, id)
    else if id in g.entities then Touch(g, id, g.entities[id].(lives := e.lives - 1))
    else g
  }

  function StrikeBoth(g: Game, a: int, b: int): Game
    requires a in g.entities && b in g.entities
  {
    Strike(Strike(g, a, g.entities[a]), b, g.entities[b])
  }

  /** `checkCollisions`: at most one pair is struck. */
  function Collide(g: Game, r: Reach): Game {
    match FirstHit(g.entities, r, g.nextId, g.nextId)
    case None => g
    case Some((a, b)) => if a in g.entities && b in g.entities then StrikeBoth(g, a, b) else g
  }

  // ----- Bullets -----

  const MAX_X: int := 1500 * MILLION

  function Speed(kind: Kind): int { if kind == Bullet then STEP else -STEP }

  /** A bullet that would leave the field with its next move. */
  predicate Leaves(e: Entity) {
    if e.kind == Bullet then e.x + STEP > MAX_X else e.x - STEP < 0
  }

  /** The entities once those below `n` of a bullet kind have flown. */
  function Flown(es: map<int, Entity>, kind: Kind, n: int): map<int, Entity> {
    map id | id in es && !(id < n && es[id].kind == kind && Leaves(es[id])) ::
      if id < n && es[id].kind == kind then Moved(es[id], Speed(kind), 0) else es[id]
  }

  /** The deletions announced for them, in the order of the identifiers. */
  function Departures(es: map<int, Entity>, kind: Kind, n: nat): seq<Event> {
    if n == 0 then []
    else
      Departures(es, kind, n - 1)
      + if n - 1 in es && es[n - 1].kind == kind && Leaves(es[n - 1]) then [Delete(n - 1), Important] else []
  }

  function FlyTo(g: Game, kind: Kind, n: nat): Game {
    g.(entities := Flown(g.entities, kind, n), frame := g.frame + Departures(g.entities, kind, n))
  }

  /** `moveBullets` and `moveEnemyBullets`. */
  function Fly(g: Game, kind: Kind): Game { FlyTo(g, kind, g.nextId) }

  // ----- Enemies and bosses -----

  const STRIDE: int := 2 * MILLION
  const SWITCH: int := 25 * MILLION

  /** Headings: 0 up, 1 left, 2 down, 3 right. */
  function HeadingMove(heading: int): (int, int) {
    if heading == 0 then (0, -STRIDE)
    else if heading == 1 then (-STRIDE, 0)
    else if heading == 2 then (0, STRIDE)
    else if heading == 3 then (STRIDE, 0)
    else (0, 0)
  }

  /** The number of stored entities of a kind below `n`. */
  function Count(es: map<int, Entity>, kind: Kind, n: nat): nat {
    if n == 0 then 0
    else Count(es, kind, n - 1) + if n - 1 in es && es[n - 1].kind == kind then 1 else 0
  }

  function EnemyBullets(g: Game): nat { Count(g.entities, EnemyBullet, g.nextId) }

  function Walk(g: Game, id: int, heading: int): Game
    requires id in g.entities
  {
    Touch(g, id, Moved(g.entities[id], HeadingMove(heading).0, HeadingMove(heading).1))
  }

  /** The shared patrol clock after one enemy has moved. */
  function Advance(g: Game): Game {
    if g.distance + STRIDE >= SWITCH then g.(direction := (g.direction + 1) % 4, distance := 0)
    else g.(distance := g.distance + STRIDE)
  }

  function Shoot(g: Game, id: int, cap: nat, roll: bool): Game
    requires id in g.entities
  {
    if EnemyBullets(g) < cap && roll
    then Spawn(g, EnemyBullet, g.entities[id].x - 50 * MILLION, g.entities[id].y - 25 * MILLION)
    else g
  }

  function EnemyTurn(g: Game, id: int, roll: bool): Game {
    if id in g.entities then Shoot(Advance(Walk(g, id, g.direction)), id, g.limits.maxEnemyBullets, roll) else g
  }

  /** The turns of the snapshot's enemies below `n`, one after the other. */
  function EnemyTurns(g: Game, rolls: int -> bool, n: nat): Game {
    if n == 0 then g
    else
      var before := EnemyTurns(g, rolls, n - 1);
      if n - 1 in g.entities && g.entities[n - 1].kind == Enemy then EnemyTurn(before, n - 1, rolls(n - 1))
      else before
  }

  function MoveEnemies(g: Game, tick: bool, rolls: int -> bool): Game {
    if tick then EnemyTurns(g, rolls, g.nextId) else g
  }

  function BossTurn(g: Game, id: int, heading: int, roll: bool): Game {
    if id in g.entities then Shoot(Walk(g, id, heading), id, g.limits.maxEnemyBullets + 5, roll) else g
  }

  function BossTurns(g: Game, input: Input, n: nat): Game {
    if n == 0 then g
    else
      var before := BossTurns(g, input, n - 1);
      if n - 1 in g.entities && g.entities[n - 1].kind == Boss
      then BossTurn(before, n - 1, input.bossHeading(n - 1) % 4, input.bossShoots(n - 1))
      else before
  }

  function MoveBoss(g: Game, input: Input): Game {
    if input.bossTick then BossTurns(g, input, g.nextId) else g
  }

  // ----- The whole update -----

  predicate Won(g: Game) {
    g.wave == g.limits.waves && g.boss == g.limits.bosses && Cleared(g, Enemy) && Cleared(g, Boss)
  }

  function CheckWin(g: Game): Game { if Won(g) then Emit(g, Win) else g }

  function Begin(g: Game): Game { g.(frame := []) }

  /** The state before the first collision check. */
  function Opening(g: Game, input: Input): Game {
    SpawnHostiles(
      CheckDisconnected(ProcessActions(InitializePlayers(Begin(g), input.players)), input.clients),
      input.place)
  }

  /** The state before the last collision check. */
  function Middle(g: Game, input: Input): Game {
    var g1 := Fly(Collide(Opening(g, input), BULLET_ENEMY), Bullet);
    var g2 := MoveEnemies(g1, input.enemyTick, input.enemyShoots);
    Fly(Collide(g2, SHOT_PLAYER), EnemyBullet)
  }

  /** `update`, with a new frame. */
  function Update(g: Game, input: Input): Game {
    CheckWin(MoveBoss(Collide(Middle(g, input), BULLET_BOSS), input))
  }

  /** `addPlayerAction`. */
  function AddAction(g: Game, player: int, code: int): Game {
    g.(actions := g.actions + [Action(player, code, false)])
  }
}

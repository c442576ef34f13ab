/** The game state as the server keeps it: an object changed in place, proved
    against the rules. The frame under construction is a field. */
module GameStateModel {
  import opened Options
  import opened Text
  import opened Protocol
  import opened World
  import opened Rules
  import opened Steps

  datatype EngineFrame = EngineFrame(frameInfos: string, sent: bool)

  class GameState {
    const limits: Limits
    var idToSet: nat
    var entities: map<int, Entity>
    var playerActions: seq<Action>
    var engineFrames: map<int, EngineFrame>
    var frameId: nat
    var previousClients: seq<int>
    var clientToEntity: map<int, int>
    var playerSpawned: nat
    var currentWave: nat
    var currentBoss: nat
    var direction: nat
    var distanceMoved: int
    var frameInfos: string
    ghost var events: seq<Event>  // what `frameInfos` spells out
    ghost var start: Game         // the state in which the frame was begun

    ghost function State(): Game
      reads this
    {
      Game(limits, entities, idToSet, events, currentWave, currentBoss, playerSpawned, clientToEntity,
           playerActions, previousClients, direction, distanceMoved)
    }

    /** The text of the frame is that of its events. */
    ghost predicate TextOk()
      reads this
    {
      frameInfos == RenderAll(events)
    }

    ghost predicate Valid()
      reads this
    {
      TextOk() && Sound(State()) && Since(start, State())
    }

    /** The frames stored so far are numbered from 0 on. */
    ghost predicate FramesOk()
      reads this`engineFrames, this`frameId
    {
      forall k :: k in engineFrames <==> 0 <= k < frameId
    }

    constructor ()
      ensures FramesOk() && Valid() && State() == InitialGame(Limits(5, 1, 1, 5))
      ensures engineFrames == map[] && frameId == 0
    {
      limits := Limits(5, 1, 1, 5);
      idToSet, entities, playerActions, engineFrames, frameId := 0, map[], [], map[], 0;
      previousClients, clientToEntity, playerSpawned, currentWave, currentBoss := [], map[], 0, 0, 0;
      direction, distanceMoved, frameInfos, events := 0, 0, "", [];
      start := InitialGame(Limits(5, 1, 1, 5));
    }

    /** `frame.frameInfos += createPacket(...)`. */
    method Append(e: Event)
      requires TextOk()
      modifies this`frameInfos, this`events
      ensures TextOk() && State() == Emit(old(State()), e)
    {
      hide RenderAll, PacketText, Data;
      RenderAllPush(events, e);
      frameInfos := frameInfos + PacketText(Code(e), Data(e));
      events := events + [e];
    }

    /** `getEntityPosition`; `None` is the invalid-id exception. */
    function GetEntityPosition(id: int): (r: Option<(int, int)>)
      reads this
      ensures r.Some? <==> id in entities
    {
      if id in entities then Some((entities[id].x, entities[id].y)) else None
    }

    method SpawnEntity(kind: Kind, x: int, y: int)
      requires TextOk()
      modifies this`idToSet, this`entities, this`clientToEntity, this`frameInfos, this`events
      ensures TextOk() && State() == Spawn(old(State()), kind, x, y)
    {
      hide RenderAll;
      var entityId := idToSet;
      var px, py := x, y;
      if kind == Bullet {
        px, py := x + 50 * MILLION, y + 25 * MILLION;
      }
      if entityId !in entities {
        entities := entities[entityId := NewEntity(kind, px, py)];
      }
      if kind == Ball {
        return;
      }
      if kind == Player {
        clientToEntity := clientToEntity[playerSpawned := entityId];
      }
      Append(Create(kind, entityId, px, py));
      Append(Important);
      assert events == old(events) + [Create(kind, entityId, px, py), Important];
      idToSet := idToSet + 1;
    }

    method KillEntity(id: int)
      requires TextOk()
      modifies this`entities, this`frameInfos, this`events
      ensures TextOk() && State() == Kill(old(State()), id)
    {
      if id in entities {
        entities := entities - {id};
        Append(Delete(id));
        Append(Important);
      }
    }

    /** One turn of the loop of `initializeplayers`. */
    method SpawnNextPlayer()
      requires TextOk()
      modifies this`idToSet, this`entities, this`clientToEntity, this`frameInfos, this`events, this`playerSpawned
      ensures TextOk() && State() == SpawnPlayer(old(State()))
    {
      hide RenderAll;
      Append(Background);
      SpawnEntity(Player, 100 * MILLION * (playerSpawned + 1), 100 * MILLION);
      playerSpawned := playerSpawned + 1;
    }

    method InitializePlayers(numPlayers: int)
      requires Valid()
      modifies this`idToSet, this`entities, this`clientToEntity, this`frameInfos, this`events, this`playerSpawned
      ensures Valid() && State() == Rules.InitializePlayers(old(State()), numPlayers)
    {
      hide RenderAll, Sound, Since, Spawn;
      InitializePlayersStep(start, State(), numPlayers);
      while playerSpawned < numPlayers
        invariant TextOk()
        invariant Rules.InitializePlayers(State(), numPlayers) == Rules.InitializePlayers(old(State()), numPlayers)
        decreases numPlayers - playerSpawned
      {
        SpawnNextPlayer();
      }
    }

    method AddPlayerAction(playerId: int, actionId: int)
      requires Valid()
      modifies this`playerActions
      ensures Valid() && State() == AddAction(old(State()), playerId, actionId)
    {
      hide RenderAll, Sound, Since;
      playerActions := playerActions + [Action(playerId, actionId, false)];
      BookStep(start, old(State()), State());
    }

    method HandlePlayerMove(playerId: int, actionId: int)
      requires TextOk()
      modifies this`entities
      ensures TextOk() && State() == PlayerMove(old(State()), playerId, actionId)
    {
      hide RenderAll;
      var x, y := 0, 0;
      if actionId == 1 {
        x := -STEP;
      } else if actionId == 2 {
        x := STEP;
      } else if actionId == 3 {
        y := -STEP;
      } else if actionId == 4 {
        y := STEP;
      }
      if playerId in clientToEntity {
        var entityId := clientToEntity[playerId];
        if entityId in entities {
          entities := entities[entityId := Moved(entities[entityId], x, y)];
        }
      }
    }

    method HandlePlayerShoot(playerId: int)
      requires TextOk()
      modifies this`idToSet, this`entities, this`clientToEntity, this`frameInfos, this`events
      ensures TextOk() && State() == PlayerShoot(old(State()), playerId)
    {
      hide RenderAll;
      if playerId in clientToEntity {
        var entityId := clientToEntity[playerId];
        if entityId in entities {
          var position := GetEntityPosition(entityId).value;
          SpawnEntity(Bullet, position.0, position.1);
        }
      }
    }

    method DeletePlayerAction()
      modifies this`playerActions
      ensures playerActions == Unprocessed(old(playerActions))
    {
      hide Unprocessed;
      var kept, i := [], 0;
      UnprocessedNothing();
      assert playerActions[0..] == playerActions;
      while i < |playerActions|
        invariant i <= |playerActions|
        invariant playerActions == old(playerActions)
        invariant kept + Unprocessed(playerActions[i..]) == Unprocessed(playerActions)
      {
        UnprocessedStep(playerActions, i);
        if !playerActions[i].processed {
          kept := kept + [playerActions[i]];
        }
        i := i + 1;
      }
      assert playerActions[i..] == [] && kept + [] == kept;
      playerActions := kept;
    }

    /** One turn of the loop over the actions. */
    method ProcessAction(i: nat)
      requires TextOk() && i < |playerActions|
      modifies this`idToSet, this`entities, this`clientToEntity, this`frameInfos, this`events, this`playerActions
      ensures playerActions == old(playerActions)[i := Seen(old(playerActions)[i])]
      ensures TextOk() && State() == Act(old(State()), old(playerActions)[i]).(actions := playerActions)
    {
      hide RenderAll, PlayerMove, PlayerShoot;
      var a := playerActions[i];
      ActFrame(State(), a, playerActions[i := Seen(a)]);
      if 0 < a.code < 5 {
        HandlePlayerMove(a.player, a.code);
        playerActions := playerActions[i := a.(processed := true)];
      } else if a.code == 5 {
        HandlePlayerShoot(a.player);
        playerActions := playerActions[i := a.(processed := true)];
      }
    }

    /** The loop over the actions. */
    method ProcessEveryAction()
      requires TextOk()
      modifies this`idToSet, this`entities, this`clientToEntity, this`frameInfos, this`events, this`playerActions
      ensures playerActions == SeenAll(old(playerActions))
      ensures TextOk() && State() == ActAll(old(State()), old(playerActions)).(actions := playerActions)
    {
      hide RenderAll, Act, ActAll, Seen, GameState.TextOk;
      ghost var g := State();
      ghost var actions := playerActions;
      NoActions(g);
      var i := 0;
      while i < |playerActions|
        invariant i <= |playerActions| == |actions|
        invariant forall j :: 0 <= j < |actions| ==> playerActions[j] == if j < i then Seen(actions[j]) else actions[j]
        invariant TextOk() && State() == ActAll(g, actions[..i]).(actions := playerActions)
      {
        OneMoreAction(g, actions, i);
        ActFrame(ActAll(g, actions[..i]), actions[i], playerActions);
        ProcessAction(i);
        i := i + 1;
      }
      assert actions[..i] == actions;
    }

    method ProcessPlayerActions()
      requires Valid()
      modifies this`idToSet, this`entities, this`clientToEntity, this`frameInfos, this`events, this`playerActions
      ensures Valid() && State() == ProcessActions(old(State()))
    {
      hide RenderAll, Sound, Since, ActAll, Unprocessed, SeenAll;
      ProcessActionsStep(start, State());
      ProcessEveryAction();
      DeletePlayerAction();
    }

    method RemovePlayerEntity(client: int)
      requires TextOk()
      modifies this`entities, this`frameInfos, this`events, this`clientToEntity
      ensures TextOk() && State() == RemovePlayer(old(State()), client)
    {
      hide RenderAll;
      if client in clientToEntity {
        KillEntity(clientToEntity[client]);
        clientToEntity := clientToEntity - {client};
      }
    }

    /** The clients of the last check that are gone. */
    method FindDisconnected(clients: seq<int>) returns (disconnected: seq<int>)
      ensures disconnected == Gone(previousClients, clients)
    {
      disconnected := [];
      for i := 0 to |previousClients|
        invariant disconnected == Gone(previousClients[..i], clients)
      {
        assert previousClients[..i + 1][..i] == previousClients[..i];
        if previousClients[i] !in clients {
          disconnected := disconnected + [previousClients[i]];
        }
      }
      assert previousClients[..|previousClients|] == previousClients;
    }

    method RemovePlayerEntities(clients: seq<int>)
      requires TextOk()
      modifies this`entities, this`frameInfos, this`events, this`clientToEntity
      ensures TextOk() && State() == RemoveAll(old(State()), clients)
    {
      hide RenderAll, RemovePlayer;
      for i := 0 to |clients|
        invariant TextOk() && State() == RemoveAll(old(State()), clients[..i])
      {
        assert clients[..i + 1][..i] == clients[..i];
        RemovePlayerEntity(clients[i]);
      }
      assert clients[..|clients|] == clients;
    }

    method CheckForDisconnectedPlayers(clients: seq<int>)
      requires Valid()
      modifies this`entities, this`frameInfos, this`events, this`clientToEntity, this`previousClients
      ensures Valid() && State() == CheckDisconnected(old(State()), clients)
    {
      hide RenderAll, Sound, Since, Gone, RemoveAll;
      CheckDisconnectedStep(start, State(), clients);
      if |clients| >= |previousClients| {
        previousClients := clients;
        return;
      }
      var disconnected := FindDisconnected(clients);
      RemovePlayerEntities(disconnected);
      previousClients := clients;
    }

    predicate AreCleared(kind: Kind)
      reads this
    {
      forall id :: id in entities ==> entities[id].kind != kind
    }

    method SpawnEnemiesRandomly(place: int -> (int, int))
      requires TextOk()
      modifies this`idToSet, this`entities, this`clientToEntity, this`frameInfos, this`events, this`currentWave
      ensures TextOk() && State() == SpawnWave(old(State()), place)
    {
      hide RenderAll, Spawn;
      for i := 0 to limits.enemiesPerWave
        invariant TextOk() && State() == SpawnMany(old(State()), Enemy, i, place)
      {
        SpawnEntity(Enemy, place(i).0, place(i).1);
      }
      currentWave := currentWave + 1;
    }

    method SpawnBossRandomly(place: int -> (int, int))
      requires TextOk()
      modifies this`idToSet, this`entities, this`clientToEntity, this`frameInfos, this`events, this`currentBoss
      ensures TextOk() && State() == SpawnBosses(old(State()), place)
    {
      hide RenderAll, Spawn;
      for i := 0 to limits.bosses
        invariant TextOk() && State() == SpawnMany(old(State()), Boss, i, place)
      {
        SpawnEntity(Boss, place(i).0, place(i).1);
      }
      currentBoss := currentBoss + 1;
    }

    /** The wave stage of `update`. */
    method SpawnStage(place: int -> (int, int))
      requires Valid()
      modifies this`idToSet, this`entities, this`clientToEntity, this`frameInfos, this`events
      modifies this`currentWave, this`currentBoss
      ensures Valid() && State() == SpawnHostiles(old(State()), place)
    {
      hide RenderAll, Since;
      SpawnHostilesStep(start, State(), place);
      if AreCleared(Enemy) {
        if currentWave < limits.waves {
          SpawnEnemiesRandomly(place);
        } else if currentBoss < limits.bosses {
          SpawnBossRandomly(place);
        }
      }
    }

    method CheckCollisions(r: Reach)
      requires Valid()
      modifies this`entities, this`frameInfos, this`events
      ensures Valid() && State() == Collide(old(State()), r)
    {
      hide RenderAll, Sound, Since, FirstHit, FirstPartner, Collide;
      var temp, n := entities, idToSet;
      CollideStep(start, State(), r);
      CollideIs(State(), r);
      NoHitYet(temp, r, n);
      for a := 0 to n
        invariant FirstHit(temp, r, a, n) == None
        invariant State() == old(State()) && TextOk()
      {
        if a in temp && temp[a].kind == r.a {
          var pa := GetEntityPosition(a).value;
          NoPartnerYet(temp, r, a);
          for b := 0 to n
            invariant FirstPartner(temp, r, a, b) == None
            invariant State() == old(State()) && TextOk()
          {
            NextPartner(temp, r, a, b);
            if b in temp && temp[b].kind == r.b && a != b {
              var pb := GetEntityPosition(b).value;
              if Abs(pa.0 - pb.0) < r.dx && Abs(pa.1 - pb.1) < r.dy {
                FirstPartnerStays(temp, r, a, b + 1, n);
                NextHit(temp, r, a, n);
                FirstHitStays(temp, r, a + 1, n, n);
                StrikeEntity(a, temp[a]);
                StrikeEntity(b, temp[b]);
                return;
              }
            }
          }
        }
        NextHit(temp, r, a, n);
        if a !in temp || temp[a].kind != r.a {
          FirstPartnerIsFirst(temp, r, a, n);
        }
      }
    }

    method StrikeEntity(id: int, e: Entity)
      requires TextOk() && id in entities
      modifies this`entities, this`frameInfos, this`events
      ensures TextOk() && State() == Strike(old(State()), id, e)
    {
      hide RenderAll;
      if e.lives == 1 {
        KillEntity(id);
      } else {
        entities := entities[id := entities[id].(lives := e.lives - 1)];
      }
    }

    method MoveBullets()
      requires Valid()
      modifies this`entities, this`frameInfos, this`events
      ensures Valid() && State() == Fly(old(State()), Bullet)
    {
      hide RenderAll, Sound, Since, FlyTo;
      var temp, n := entities, idToSet;
      ghost var g := State();
      SoundIds(g);
      FlyToNothing(g, Bullet);
      for id := 0 to n
        invariant TextOk() && State() == FlyTo(g, Bullet, id)
      {
        FlyToNext(g, Bullet, id + 1);
        if id in temp && temp[id].kind == Bullet {
          var newX := GetEntityPosition(id).value.0 + STEP;
          if newX > MAX_X {
            KillEntity(id);
          } else {
            entities := entities[id := Moved(entities[id], STEP, 0)];
          }
        }
      }
      FlyToStep(start, g, Bullet, n);
    }

    method MoveEnemyBullets()
      requires Valid()
      modifies this`entities, this`frameInfos, this`events
      ensures Valid() && State() == Fly(old(State()), EnemyBullet)
    {
      hide RenderAll, Sound, Since, FlyTo;
      var temp, n := entities, idToSet;
      ghost var g := State();
      SoundIds(g);
      FlyToNothing(g, EnemyBullet);
      for id := 0 to n
        invariant TextOk() && State() == FlyTo(g, EnemyBullet, id)
      {
        FlyToNext(g, EnemyBullet, id + 1);
        if id in temp && temp[id].kind == EnemyBullet {
          var newX := GetEntityPosition(id).value.0 - STEP;
          if newX < 0 {
            KillEntity(id);
          } else {
            entities := entities[id := Moved(entities[id], -STEP, 0)];
          }
        }
      }
      FlyToStep(start, g, EnemyBullet, n);
    }

    method CountEnemyBullets() returns (count: nat)
      ensures count == EnemyBullets(State())
    {
      count := 0;
      for id := 0 to idToSet
        invariant count == Count(entities, EnemyBullet, id)
      {
        if id in entities && entities[id].kind == EnemyBullet {
          count := count + 1;
        }
      }
    }

    /** The shot an enemy or a boss may fire after its move. */
    method ShootFrom(id: int, cap: nat, roll: bool)
      requires TextOk() && id in entities
      modifies this`idToSet, this`entities, this`clientToEntity, this`frameInfos, this`events
      ensures TextOk() && State() == Shoot(old(State()), id, cap, roll)
    {
      hide RenderAll;
      var count := CountEnemyBullets();
      if count < cap && roll {
        var position := GetEntityPosition(id).value;
        SpawnEntity(EnemyBullet, position.0 - 50 * MILLION, position.1 - 25 * MILLION);
      }
    }

    /** One enemy's turn: its move, the shared patrol clock, its shot. */
    method MoveEnemy(id: int, roll: bool)
      requires TextOk() && id in entities
      modifies this`idToSet, this`entities, this`clientToEntity, this`frameInfos, this`events
      modifies this`direction, this`distanceMoved
      ensures TextOk() && State() == EnemyTurn(old(State()), id, roll)
    {
      hide RenderAll, Shoot;
      var move := HeadingMove(direction);
      entities := entities[id := Moved(entities[id], move.0, move.1)];
      distanceMoved := distanceMoved + STRIDE;
      if distanceMoved >= SWITCH {
        direction := (direction + 1) % 4;
        distanceMoved := 0;
      }
      ShootFrom(id, limits.maxEnemyBullets, roll);
    }

    method MoveEnemies(tick: bool, rolls: int -> bool)
      requires Valid()
      modifies this`idToSet, this`entities, this`clientToEntity, this`frameInfos, this`events
      modifies this`direction, this`distanceMoved
      ensures Valid() && State() == Rules.MoveEnemies(old(State()), tick, rolls)
    {
      hide RenderAll, Sound, Since, EnemyTurn;
      if !tick {
        return;
      }
      var temp, n := entities, idToSet;
      ghost var g := State();
      SoundIds(g);
      for id := 0 to n
        invariant TextOk() && State() == EnemyTurns(g, rolls, id)
      {
        EnemyTurnsWalked(g, rolls, id);
        if id in temp && temp[id].kind == Enemy {
          MoveEnemy(id, rolls(id));
        }
      }
      EnemyTurnsStep(start, g, rolls, n);
    }

    /** One boss's turn: its move and its shot. */
    method MoveOneBoss(id: int, heading: int, roll: bool)
      requires TextOk() && id in entities
      modifies this`idToSet, this`entities, this`clientToEntity, this`frameInfos, this`events
      ensures TextOk() && State() == BossTurn(old(State()), id, heading, roll)
    {
      hide RenderAll, Shoot;
      var move := HeadingMove(heading);
      entities := entities[id := Moved(entities[id], move.0, move.1)];
      ShootFrom(id, limits.maxEnemyBullets + 5, roll);
    }

    method MoveBoss(input: Input)
      requires Valid()
      modifies this`idToSet, this`entities, this`clientToEntity, this`frameInfos, this`events
      ensures Valid() && State() == Rules.MoveBoss(old(State()), input)
    {
      hide RenderAll, Sound, Since, BossTurn;
      if !input.bossTick {
        return;
      }
      var temp, n := entities, idToSet;
      ghost var g := State();
      SoundIds(g);
      for id := 0 to n
        invariant TextOk() && State() == BossTurns(g, input, id)
      {
        BossTurnsWalked(g, input, id);
        if id in temp && temp[id].kind == Boss {
          MoveOneBoss(id, input.bossHeading(id) % 4, input.bossShoots(id));
        }
      }
      BossTurnsStep(start, g, input, n);
    }

    method CheckWinCondition()
      requires Valid()
      modifies this`frameInfos, this`events
      ensures Valid() && State() == CheckWin(old(State()))
    {
      hide RenderAll, Sound, Since;
      CheckWinStep(start, State());
      if currentWave == limits.waves && currentBoss == limits.bosses && AreCleared(Enemy) && AreCleared(Boss) {
        Append(Win);
      }
    }

    /** `EngineFrame new_frame;` */
    method BeginFrame()
      requires Valid()
      modifies this`frameInfos, this`events, this`start
      ensures Valid() && State() == Begin(old(State())) && start == State()
    {
      hide Sound, Since, RenderAll;
      BeginSound(State());
      RenderAllNothing();
      frameInfos, events := "", [];
      start := State();
    }

    /** `update` on a new frame. */
    method Update(input: Input)
      requires Valid()
      modifies this`idToSet, this`entities, this`clientToEntity, this`frameInfos, this`events, this`start
      modifies this`playerSpawned, this`playerActions, this`previousClients, this`currentWave, this`currentBoss
      modifies this`direction, this`distanceMoved
      ensures Valid() && State() == Rules.Update(old(State()), input)
      ensures start == Begin(old(State()))
    {
      hide GameState.State, GameState.Valid, Begin, Rules.InitializePlayers, ProcessActions, CheckDisconnected;
      hide SpawnHostiles, Collide, Fly, Rules.MoveEnemies, Rules.MoveBoss, CheckWin;
      BeginFrame();
      InitializePlayers(input.players);
      ProcessPlayerActions();
      CheckForDisconnectedPlayers(input.clients);
      SpawnStage(input.place);
      CheckCollisions(BULLET_ENEMY);
      MoveBullets();
      MoveEnemies(input.enemyTick, input.enemyShoots);
      CheckCollisions(SHOT_PLAYER);
      MoveEnemyBullets();
      CheckCollisions(BULLET_BOSS);
      MoveBoss(input);
      CheckWinCondition();
    }

    /** One turn of the game loop: update, then store the frame under the next number. */
    method RunFrame(input: Input)
      requires Valid() && FramesOk()
      modifies this
      ensures Valid() && State() == Rules.Update(old(State()), input)
      ensures FramesOk() && frameId == old(frameId) + 1
      ensures engineFrames == old(engineFrames)[old(frameId) := EngineFrame(RenderAll(State().frame), false)]
    {
      hide RenderAll, Sound, Since, Rules.Update;
      Update(input);
      if frameId !in engineFrames {
        engineFrames := engineFrames[frameId := EngineFrame(frameInfos, false)];
      }
      frameId := frameId + 1;
    }
  }

  lemma UnprocessedNothing()
    ensures Unprocessed([]) == []
  {
  }

  lemma UnprocessedStep(actions: seq<Action>, i: nat)
    requires i < |actions|
    ensures Unprocessed(actions[i..])
            == (if actions[i].processed then [] else [actions[i]]) + Unprocessed(actions[i + 1..])
  {
    assert actions[i..][1..] == actions[i + 1..];
  }

  lemma NoActions(g: Game)
    ensures ActAll(g, []) == g
  {
  }

  lemma OneMoreAction(g: Game, actions: seq<Action>, i: nat)
    requires i < |actions|
    ensures ActAll(g, actions[..i + 1]) == Act(ActAll(g, actions[..i]), actions[i])
  {
    assert actions[..i + 1][..i] == actions[..i];
  }

  /** Acting on a state does not read its action list. */
  lemma ActFrame(g: Game, a: Action, actions: seq<Action>)
    ensures Act(g.(actions := actions), a) == Act(g, a).(actions := actions)
  {
  }

  lemma CollideIs(g: Game, r: Reach)
    ensures match FirstHit(g.entities, r, g.nextId, g.nextId)
            case None => Collide(g, r) == g
            case Some((a, b)) => a in g.entities && b in g.entities ==> Collide(g, r) == StrikeBoth(g, a, b)
  {
  }

  lemma NoHitYet(es: map<int, Entity>, r: Reach, bound: nat)
    ensures FirstHit(es, r, 0, bound) == None
  {
  }

  lemma NoPartnerYet(es: map<int, Entity>, r: Reach, a: int)
    ensures FirstPartner(es, r, a, 0) == None
  {
  }

  lemma NextPartner(es: map<int, Entity>, r: Reach, a: int, b: nat)
    requires FirstPartner(es, r, a, b) == None
    ensures FirstPartner(es, r, a, b + 1) == if Hits(es, r, a, b) then Some(b) else None
  {
  }

  lemma NextHit(es: map<int, Entity>, r: Reach, a: nat, bound: nat)
    requires FirstHit(es, r, a, bound) == None
    ensures FirstHit(es, r, a + 1, bound)
            == match FirstPartner(es, r, a, bound) case None => None case Some(b) => Some((a, b))
  {
  }

  lemma {:induction false} FirstPartnerStays(es: map<int, Entity>, r: Reach, a: int, m: nat, n: nat)
    requires m <= n && FirstPartner(es, r, a, m).Some?
    ensures FirstPartner(es, r, a, n) == FirstPartner(es, r, a, m)
  {
    if m < n { FirstPartnerStays(es, r, a, m, n - 1); }
  }

  lemma {:induction false} FirstHitStays(es: map<int, Entity>, r: Reach, m: nat, n: nat, bound: nat)
    requires m <= n && FirstHit(es, r, m, bound).Some?
    ensures FirstHit(es, r, n, bound) == FirstHit(es, r, m, bound)
  {
    if m < n { FirstHitStays(es, r, m, n - 1, bound); }
  }
}

/** What a whole update does to the entities: it stays sound, its frame tells
    what happened, and every bullet flies exactly one step or is gone. The stages
    are composed in the order of `update`; each composition adds up the kinds that
    may have moved so far. */
module Updates {
  import opened Protocol
  import opened World
  import opened Rules
  import opened Steps

  /** The state before the enemy bullets fly. */
  function BeforeShotsFly(g: Game, input: Input): Game {
    Collide(MoveEnemies(Fly(Collide(Opening(g, input), BULLET_ENEMY), Bullet), input.enemyTick, input.enemyShoots),
            SHOT_PLAYER)
  }

  lemma OpeningStep(g: Game, input: Input)
    requires Sound(g)
    ensures Sound(Begin(g)) && Since(Begin(g), Begin(g))
    ensures Step(Begin(g), Begin(g), Opening(g, input), {Player})
    ensures Sound(Opening(g, input)) && Since(Begin(g), Opening(g, input))
  {
    hide InitializePlayers, ProcessActions, CheckDisconnected, SpawnHostiles;
    var b := Begin(g);
    BeginSound(g);
    var g1 := InitializePlayers(b, input.players);
    var g2 := ProcessActions(g1);
    var g3 := CheckDisconnected(g2, input.clients);
    InitializePlayersStep(b, b, input.players);
    ProcessActionsStep(b, g1);
    CheckDisconnectedStep(b, g2, input.clients);
    Compose(b, b, g1, g2, {}, {Player});
    Compose(b, b, g2, g3, {Player}, {});
    assert {Player} + {} == {Player};
    Sounds(b, b, g3, {Player} + {});
    SpawnHostilesStep(b, g3, input.place);
    Compose(b, b, g3, Opening(g, input), {Player}, {});
  }

  lemma Compose(g0: Game, a: Game, b: Game, c: Game, m: set<Kind>, n: set<Kind>)
    requires Step(g0, a, b, m) && Step(g0, b, c, n)
    ensures Step(g0, a, c, m + n)
  {
    hide Step;
    StepMore(g0, a, b, m, m + n);
    StepMore(g0, b, c, n, m + n);
    StepTrans(g0, a, b, c, m + n);
  }

  lemma Sounds(g0: Game, a: Game, b: Game, m: set<Kind>)
    requires Step(g0, a, b, m) && Sound(a) && Since(g0, a)
    ensures Sound(b) && IdsOk(b) && Since(g0, b) && Survives(a, b, m)
  {
  }

  lemma MoveEnemiesStep(g0: Game, g: Game, tick: bool, rolls: int -> bool)
    ensures Step(g0, g, MoveEnemies(g, tick, rolls), {Enemy})
  {
    hide Step;
    SameStep(g0, g);
    StepMore(g0, g, g, {}, {Enemy});
    EnemyTurnsStep(g0, g, rolls, g.nextId);
  }

  lemma MoveBossStep(g0: Game, g: Game, input: Input)
    ensures Step(g0, g, MoveBoss(g, input), {Boss})
  {
    hide Step;
    SameStep(g0, g);
    StepMore(g0, g, g, {}, {Boss});
    BossTurnsStep(g0, g, input, g.nextId);
  }

  lemma BeforeBulletsFlyStep(g: Game, input: Input)
    requires Sound(g)
    ensures var c := Collide(Opening(g, input), BULLET_ENEMY);
            && Step(Begin(g), Begin(g), c, {Player, Boss}) && Sound(c) && IdsOk(c) && Since(Begin(g), c)
  {
    hide Step, Opening, Collide;
    OpeningStep(g, input);
    var b, o := Begin(g), Opening(g, input);
    CollideStep(b, o, BULLET_ENEMY);
    Compose(b, b, o, Collide(o, BULLET_ENEMY), {Player}, {Boss});
    assert {Player} + {Boss} == {Player, Boss};
    Sounds(b, b, Collide(o, BULLET_ENEMY), {Player, Boss});
  }

  lemma BeforeShotsFlyStep(g: Game, input: Input)
    requires Sound(g)
    ensures var p := BeforeShotsFly(g, input);
            && Step(Begin(g), Begin(g), p, {Player, Boss, Bullet, Enemy})
            && Sound(p) && IdsOk(p) && Since(Begin(g), p)
  {
    hide Step, Opening, Collide, Fly, MoveEnemies;
    BeforeBulletsFlyStep(g, input);
    var b, c := Begin(g), Collide(Opening(g, input), BULLET_ENEMY);
    var f := Fly(c, Bullet);
    var e := MoveEnemies(f, input.enemyTick, input.enemyShoots);
    BeginSound(g);
    FlyStep(b, c, Bullet);
    MoveEnemiesStep(b, f, input.enemyTick, input.enemyShoots);
    CollideStep(b, e, SHOT_PLAYER);
    Compose(b, b, c, f, {Player, Boss}, {Bullet});
    Compose(b, b, f, e, {Player, Boss} + {Bullet}, {Enemy});
    Compose(b, b, e, Collide(e, SHOT_PLAYER), {Player, Boss} + {Bullet} + {Enemy}, {Boss});
    assert {Player, Boss} + {Bullet} + {Enemy} + {Boss} == {Player, Boss, Bullet, Enemy};
    Sounds(b, b, BeforeShotsFly(g, input), {Player, Boss, Bullet, Enemy});
  }

  lemma FlyStep(g0: Game, g: Game, kind: Kind)
    requires kind != Boss && IdsOk(g)
    ensures Step(g0, g, Fly(g, kind), {kind})
  {
    hide Step;
    FlyToStep(g0, g, kind, g.nextId);
  }

  lemma MiddleStep(g: Game, input: Input)
    requires Sound(g)
    ensures var q := Middle(g, input);
            && q == Fly(BeforeShotsFly(g, input), EnemyBullet)
            && Sound(q) && Since(Begin(g), q)
            && Step(Begin(g), Begin(g), q, {Player, Boss, Bullet, Enemy, EnemyBullet})
  {
    hide Step, Opening, Collide, Fly, MoveEnemies;
    BeforeShotsFlyStep(g, input);
    var b, p := Begin(g), BeforeShotsFly(g, input);
    BeginSound(g);
    FlyStep(b, p, EnemyBullet);
    Compose(b, b, p, Fly(p, EnemyBullet), {Player, Boss, Bullet, Enemy}, {EnemyBullet});
    assert {Player, Boss, Bullet, Enemy} + {EnemyBullet} == {Player, Boss, Bullet, Enemy, EnemyBullet};
    Sounds(b, b, Fly(p, EnemyBullet), {Player, Boss, Bullet, Enemy, EnemyBullet});
  }

  /** The last stages leave everything but bosses alone. */
  lemma ClosingStep(g: Game, input: Input)
    ensures Step(Begin(g), Middle(g, input), Update(g, input), {Boss})
  {
    hide Step, Middle, Collide, MoveBoss, CheckWin;
    var b, q := Begin(g), Middle(g, input);
    var c := Collide(q, BULLET_BOSS);
    var m := MoveBoss(c, input);
    CollideStep(b, q, BULLET_BOSS);
    MoveBossStep(b, c, input);
    CheckWinStep(b, m);
    StepMore(b, m, CheckWin(m), {}, {Boss});
    StepTrans(b, q, c, m, {Boss});
    StepTrans(b, q, m, CheckWin(m), {Boss});
  }

  const EVERY_KIND: set<Kind> := {Player, Boss, Bullet, Enemy, EnemyBullet}

  /** An update keeps the state sound, its frame tells what happened to the
      entities, and an entity never changes its kind. */
  lemma UpdateStep(g: Game, input: Input)
    requires Sound(g)
    ensures var u := Update(g, input);
            Sound(u) && Since(Begin(g), u) && Survives(Begin(g), u, EVERY_KIND)
  {
    hide Step, Middle, Update;
    MiddleStep(g, input);
    ClosingStep(g, input);
    var b := Begin(g);
    BeginSound(g);
    Compose(b, b, Middle(g, input), Update(g, input), EVERY_KIND, {Boss});
    assert EVERY_KIND + {Boss} == EVERY_KIND;
    Sounds(b, b, Update(g, input), EVERY_KIND);
  }

  /** An enemy bullet that outlives an update has flown one step to the left
      and is still on the field. */
  lemma EnemyBulletFlight(g: Game, input: Input, id: int)
    requires Sound(g) && id in Update(g, input).entities && id < g.nextId
    requires Update(g, input).entities[id].kind == EnemyBullet
    ensures id in g.entities
    ensures Update(g, input).entities[id] == Moved(g.entities[id], -STEP, 0)
    ensures 0 <= Update(g, input).entities[id].x
  {
    hide Middle, Update, BeforeShotsFly, Fly, Step, Sound, IdsOk, Since, Survives;
    var b, p, q, u := Begin(g), BeforeShotsFly(g, input), Middle(g, input), Update(g, input);
    BeforeShotsFlyStep(g, input);
    MiddleStep(g, input);
    ClosingStep(g, input);
    BeginSound(g);
    Sounds(b, b, p, {Player, Boss, Bullet, Enemy});
    Sounds(b, b, q, EVERY_KIND);
    Sounds(b, q, u, {Boss});
    SurvivesIds(b, p, {Player, Boss, Bullet, Enemy});
    SurvivesIds(b, q, EVERY_KIND);
    SurvivesAs(q, u, {Boss}, id);
    FlownEntity(p, EnemyBullet, id);
    SurvivesAs(b, p, {Player, Boss, Bullet, Enemy}, id);
    ShotLeaves(p.entities[id]);
  }

  lemma ShotLeaves(e: Entity)
    ensures e.kind == EnemyBullet && !Leaves(e) ==> 0 <= e.x - STEP
    ensures Speed(EnemyBullet) == -STEP && Speed(Bullet) == STEP
  {
  }

  lemma FlownEntity(g: Game, kind: Kind, id: int)
    requires IdsOk(g) && id in Fly(g, kind).entities
    ensures id in g.entities
    ensures g.entities[id].kind == kind ==>
              !Leaves(g.entities[id]) && Fly(g, kind).entities[id] == Moved(g.entities[id], Speed(kind), 0)
    ensures g.entities[id].kind != kind ==> Fly(g, kind).entities[id] == g.entities[id]
  {
  }

  /** A player bullet that outlives an update has flown one step to the right. */
  lemma BulletFlight(g: Game, input: Input, id: int)
    requires Sound(g) && id in Update(g, input).entities && id < g.nextId
    requires Update(g, input).entities[id].kind == Bullet
    ensures id in g.entities
    ensures Update(g, input).entities[id] == Moved(g.entities[id], STEP, 0)
  {
    hide Middle, Update, Opening, Collide, Fly, Step, Sound, IdsOk, Since, Survives;
    var b, c := Begin(g), Collide(Opening(g, input), BULLET_ENEMY);
    var f, u := Fly(c, Bullet), Update(g, input);
    BeforeBulletsFlyStep(g, input);
    AfterBulletsFlyStep(g, input);
    BeginSound(g);
    Sounds(b, b, c, {Player, Boss});
    FlySound(b, c, Bullet);
    Sounds(b, f, u, {Enemy, Boss, EnemyBullet});
    SurvivesIds(b, c, {Player, Boss});
    SurvivesIds(c, f, {Bullet});
    SurvivesAs(f, u, {Enemy, Boss, EnemyBullet}, id);
    FlownEntity(c, Bullet, id);
    SurvivesAs(b, c, {Player, Boss}, id);
    ShotLeaves(c.entities[id]);
  }

  lemma FlySound(g0: Game, g: Game, kind: Kind)
    requires kind != Boss && Sound(g) && Since(g0, g)
    ensures Sound(Fly(g, kind)) && Since(g0, Fly(g, kind)) && Survives(g, Fly(g, kind), {kind})
  {
    FlyStep(g0, g, kind);
  }

  /** No stage after the player bullets' flight moves or creates a player bullet. */
  lemma AfterBulletsFlyStep(g: Game, input: Input)
    requires Sound(g)
    ensures Step(Begin(g), Fly(Collide(Opening(g, input), BULLET_ENEMY), Bullet), Update(g, input),
                 {Enemy, Boss, EnemyBullet})
  {
    hide Step, Opening, Collide, Fly, MoveEnemies, Update;
    var b, f := Begin(g), Fly(Collide(Opening(g, input), BULLET_ENEMY), Bullet);
    var e := MoveEnemies(f, input.enemyTick, input.enemyShoots);
    var p, q, u := BeforeShotsFly(g, input), Middle(g, input), Update(g, input);
    MoveEnemiesStep(b, f, input.enemyTick, input.enemyShoots);
    CollideStep(b, e, SHOT_PLAYER);
    BeforeShotsFlyStep(g, input);
    FlyStep(b, p, EnemyBullet);
    MiddleStep(g, input);
    ClosingStep(g, input);
    Compose(b, f, e, p, {Enemy}, {Boss});
    Compose(b, f, p, q, {Enemy} + {Boss}, {EnemyBullet});
    Compose(b, f, q, u, {Enemy} + {Boss} + {EnemyBullet}, {Boss});
    assert {Enemy} + {Boss} + {EnemyBullet} + {Boss} == {Enemy, Boss, EnemyBullet};
  }
}

/** Every stage of an update keeps the state sound and tells the truth in its
    frame; it moves only the kinds it is for. The invariant `Step` says so of two
    states: if the first is sound and its frame tells what happened since the frame
    was begun, so is the second, and what outlives the stage has kept its kind. */
module Steps {
  import opened Options
  import opened Protocol
  import opened World
  import opened Rules

  lemma BeginSound(g: Game)
    requires Sound(g)
    ensures Sound(Begin(g)) && Since(Begin(g), Begin(g))
  {
  }

  lemma {:induction false} InitializePlayersStep(g0: Game, g: Game, players: int)
    ensures Step(g0, g, InitializePlayers(g, players), {})
    decreases players - g.spawned
  {
    hide Step;
    if players <= g.spawned {
      SameStep(g0, g);
    } else {
      SpawnPlayerStep(g0, g);
      InitializePlayersStep(g0, SpawnPlayer(g), players);
      StepTrans(g0, g, SpawnPlayer(g), InitializePlayers(g, players), {});
    }
  }

  lemma SameStep(g0: Game, g: Game)
    ensures Step(g0, g, g, {})
  {
  }

  /** Bookkeeping outside the entities and the frame is no step at all. */
  lemma BookStep(g0: Game, a: Game, b: Game)
    requires b == a.(actions := b.actions, previous := b.previous, direction := b.direction, distance := b.distance)
    ensures Step(g0, a, b, {})
  {
  }

  lemma ActStep(g0: Game, g: Game, a: Action)
    ensures Step(g0, g, Act(g, a), {Player})
  {
    SameStep(g0, g);
    match OwnedBy(g, a.player) {
      case None =>
      case Some(id) =>
        if Sound(g) {
          TouchStep(g0, g, id, Moved(g.entities[id], ActionMove(a.code).0, ActionMove(a.code).1));
          SpawnStep(g0, g, Bullet, g.entities[id].x, g.entities[id].y);
        }
    }
  }

  lemma {:induction false} ActAllStep(g0: Game, g: Game, actions: seq<Action>)
    ensures Step(g0, g, ActAll(g, actions), {Player})
  {
    hide Step, Act;
    if actions == [] {
      SameStep(g0, g);
      StepMore(g0, g, g, {}, {Player});
    } else {
      var front := ActAll(g, actions[..|actions| - 1]);
      ActAllStep(g0, g, actions[..|actions| - 1]);
      ActStep(g0, front, actions[|actions| - 1]);
      StepTrans(g0, g, front, ActAll(g, actions), {Player});
    }
  }

  lemma ProcessActionsStep(g0: Game, g: Game)
    ensures Step(g0, g, ProcessActions(g), {Player})
  {
    hide Step;
    var mid := ActAll(g, g.actions);
    ActAllStep(g0, g, g.actions);
    BookStep(g0, mid, ProcessActions(g));
    StepMore(g0, mid, ProcessActions(g), {}, {Player});
    StepTrans(g0, g, mid, ProcessActions(g), {Player});
  }

  lemma RemovePlayerStep(g0: Game, g: Game, client: int)
    ensures Step(g0, g, RemovePlayer(g, client), {})
  {
    SameStep(g0, g);
    if client in g.owner {
      var k := Kill(g, g.owner[client]);
      KillStep(g0, g, g.owner[client]);
      DisownStep(g0, k, client);
      StepTrans(g0, g, k, RemovePlayer(g, client), {});
    }
  }

  lemma DisownStep(g0: Game, g: Game, client: int)
    ensures Step(g0, g, g.(owner := g.owner - {client}), {})
  {
  }

  lemma {:induction false} RemoveAllStep(g0: Game, g: Game, clients: seq<int>)
    ensures Step(g0, g, RemoveAll(g, clients), {})
  {
    hide Step, RemovePlayer;
    if clients == [] {
      SameStep(g0, g);
    } else {
      var front := RemoveAll(g, clients[..|clients| - 1]);
      RemoveAllStep(g0, g, clients[..|clients| - 1]);
      RemovePlayerStep(g0, front, clients[|clients| - 1]);
      StepTrans(g0, g, front, RemoveAll(g, clients), {});
    }
  }

  lemma CheckDisconnectedStep(g0: Game, g: Game, current: seq<int>)
    ensures Step(g0, g, CheckDisconnected(g, current), {})
  {
    hide Step;
    var mid := if |current| >= |g.previous| then g else RemoveAll(g, Gone(g.previous, current));
    SameStep(g0, g);
    RemoveAllStep(g0, g, Gone(g.previous, current));
    BookStep(g0, mid, CheckDisconnected(g, current));
    StepTrans(g0, g, mid, CheckDisconnected(g, current), {});
  }

  lemma SpawnCounters(g: Game, kind: Kind, x: int, y: int)
    ensures var s := Spawn(g, kind, x, y); s.wave == g.wave && s.boss == g.boss && s.limits == g.limits
  {
  }

  lemma {:induction false} SpawnManyStep(g0: Game, g: Game, kind: Kind, n: nat, place: int -> (int, int))
    requires kind != Ball && kind != Player
    ensures Step(g0, g, SpawnMany(g, kind, n, place), {})
    ensures var s := SpawnMany(g, kind, n, place);
            s.wave == g.wave && s.boss == g.boss && s.limits == g.limits
  {
    hide Step, Spawn;
    if n == 0 {
      SameStep(g0, g);
    } else {
      var front := SpawnMany(g, kind, n - 1, place);
      SpawnManyStep(g0, g, kind, n - 1, place);
      SpawnStep(g0, front, kind, place(n - 1).0, place(n - 1).1);
      SpawnCounters(front, kind, place(n - 1).0, place(n - 1).1);
      StepTrans(g0, g, front, SpawnMany(g, kind, n, place), {});
    }
  }

  lemma CounterStep(g0: Game, a: Game, b: Game)
    requires b == a.(wave := b.wave, boss := b.boss) && b.wave <= b.limits.waves && b.boss <= b.limits.bosses
    ensures Step(g0, a, b, {})
  {
  }

  lemma SpawnHostilesStep(g0: Game, g: Game, place: int -> (int, int))
    requires g.wave <= g.limits.waves && g.boss <= g.limits.bosses
    ensures Step(g0, g, SpawnHostiles(g, place), {})
  {
    hide Step, SpawnMany;
    SameStep(g0, g);
    var w, b := SpawnMany(g, Enemy, g.limits.enemiesPerWave, place), SpawnMany(g, Boss, g.limits.bosses, place);
    SpawnManyStep(g0, g, Enemy, g.limits.enemiesPerWave, place);
    SpawnManyStep(g0, g, Boss, g.limits.bosses, place);
    if g.wave < g.limits.waves {
      CounterStep(g0, w, SpawnWave(g, place));
      StepTrans(g0, g, w, SpawnWave(g, place), {});
    }
    if g.boss < g.limits.bosses {
      CounterStep(g0, b, SpawnBosses(g, place));
      StepTrans(g0, g, b, SpawnBosses(g, place), {});
    }
  }

  lemma StrikeStep(g0: Game, g: Game, id: int, e: Entity)
    requires id in g.entities ==> e == g.entities[id]
    ensures Step(g0, g, Strike(g, id, e), {Boss})
  {
    KillStep(g0, g, id);
    SameStep(g0, g);
    if Sound(g) && id in g.entities && e.lives != 1 {
      TouchStep(g0, g, id, e.(lives := e.lives - 1));
    }
  }

  lemma CollideStep(g0: Game, g: Game, r: Reach)
    ensures Step(g0, g, Collide(g, r), {Boss})
  {
    SameStep(g0, g);
    match FirstHit(g.entities, r, g.nextId, g.nextId) {
      case None =>
      case Some((a, b)) =>
        if a in g.entities && b in g.entities && a != b {
          var mid := Strike(g, a, g.entities[a]);
          StrikeStep(g0, g, a, g.entities[a]);
          StrikeStep(g0, mid, b, g.entities[b]);
          StepTrans(g0, g, mid, Collide(g, r), {Boss});
        } else if a == b {
          FirstHitHits(g.entities, r, g.nextId, g.nextId);
        }
    }
  }

  lemma {:induction false} FirstPartnerIsFirst(es: map<int, Entity>, r: Reach, a: int, n: nat)
    ensures match FirstPartner(es, r, a, n)
            case None => forall b :: 0 <= b < n ==> !Hits(es, r, a, b)
            case Some(b) => 0 <= b < n && Hits(es, r, a, b) && forall c :: 0 <= c < b ==> !Hits(es, r, a, c)
  {
    if n > 0 { FirstPartnerIsFirst(es, r, a, n - 1); }
  }

  /** `FirstHit` finds a hitting pair exactly when there is one, and then the
      first of them in the order of the loops. */
  lemma {:induction false} FirstHitHits(es: map<int, Entity>, r: Reach, n: nat, bound: nat)
    ensures match FirstHit(es, r, n, bound)
            case None => forall a, b :: 0 <= a < n && 0 <= b < bound ==> !Hits(es, r, a, b)
            case Some((a, b)) =>
              && 0 <= a < n && 0 <= b < bound && Hits(es, r, a, b)
              && forall c, d :: 0 <= c <= a && 0 <= d < bound && (c < a || d < b) ==> !Hits(es, r, c, d)
  {
    if n > 0 {
      FirstHitHits(es, r, n - 1, bound);
      FirstPartnerIsFirst(es, r, n - 1, bound);
    }
  }

  lemma FlownNext(es: map<int, Entity>, kind: Kind, n: int)
    ensures var before, after := Flown(es, kind, n - 1), Flown(es, kind, n);
            if n - 1 in es && es[n - 1].kind == kind then
              && n - 1 in before && before[n - 1] == es[n - 1]
              && after == if Leaves(es[n - 1]) then before - {n - 1}
                          else before[n - 1 := Moved(es[n - 1], Speed(kind), 0)]
            else after == before
  {
  }

  /** One more bullet: deleted at the border, moved otherwise. */
  lemma FlyToNext(g: Game, kind: Kind, n: nat)
    requires n > 0
    ensures var before, after := FlyTo(g, kind, n - 1), FlyTo(g, kind, n);
            if n - 1 in g.entities && g.entities[n - 1].kind == kind then
              && n - 1 in before.entities && before.entities[n - 1] == g.entities[n - 1]
              && after == if Leaves(g.entities[n - 1]) then Kill(before, n - 1)
                          else Touch(before, n - 1, Moved(g.entities[n - 1], Speed(kind), 0))
            else after == before
  {
    hide Flown;
    FlownNext(g.entities, kind, n);
  }

  lemma FlyToNothing(g: Game, kind: Kind)
    requires IdsOk(g)
    ensures FlyTo(g, kind, 0) == g
  {
    assert Flown(g.entities, kind, 0) == g.entities;
  }

  lemma {:induction false} FlyToStep(g0: Game, g: Game, kind: Kind, n: nat)
    requires kind != Boss && IdsOk(g)
    ensures Step(g0, g, FlyTo(g, kind, n), {kind})
  {
    hide Step, FlyTo;
    if n == 0 {
      FlyToNothing(g, kind);
      SameStep(g0, g);
      StepMore(g0, g, g, {}, {kind});
    } else {
      var before, after := FlyTo(g, kind, n - 1), FlyTo(g, kind, n);
      FlyToStep(g0, g, kind, n - 1);
      FlyToNext(g, kind, n);
      KillStep(g0, before, n - 1);
      SameStep(g0, before);
      if n - 1 in g.entities && g.entities[n - 1].kind == kind && !Leaves(g.entities[n - 1]) {
        TouchStep(g0, before, n - 1, Moved(g.entities[n - 1], Speed(kind), 0));
      } else {
        StepMore(g0, before, after, {}, {kind});
      }
      StepTrans(g0, g, before, after, {kind});
    }
  }

  lemma WalkStep(g0: Game, g: Game, id: int, heading: int)
    requires id in g.entities
    ensures Step(g0, g, Walk(g, id, heading), {g.entities[id].kind})
  {
    if Sound(g) {
      TouchStep(g0, g, id, Moved(g.entities[id], HeadingMove(heading).0, HeadingMove(heading).1));
    }
  }

  lemma ShootStep(g0: Game, g: Game, id: int, cap: nat, roll: bool)
    requires id in g.entities
    ensures Step(g0, g, Shoot(g, id, cap, roll), {})
  {
    SameStep(g0, g);
    SpawnStep(g0, g, EnemyBullet, g.entities[id].x - 50 * Text.MILLION, g.entities[id].y - 25 * Text.MILLION);
  }

  lemma EnemyTurnStep(g0: Game, g: Game, id: int, roll: bool)
    requires id in g.entities ==> g.entities[id].kind == Enemy
    ensures Step(g0, g, EnemyTurn(g, id, roll), {Enemy})
  {
    hide Step;
    SameStep(g0, g);
    StepMore(g0, g, g, {}, {Enemy});
    if id in g.entities {
      var w := Walk(g, id, g.direction);
      WalkStep(g0, g, id, g.direction);
      BookStep(g0, w, Advance(w));
      StepMore(g0, w, Advance(w), {}, {Enemy});
      StepTrans(g0, g, w, Advance(w), {Enemy});
      ShootStep(g0, Advance(w), id, g.limits.maxEnemyBullets, roll);
      StepMore(g0, Advance(w), EnemyTurn(g, id, roll), {}, {Enemy});
      StepTrans(g0, g, Advance(w), EnemyTurn(g, id, roll), {Enemy});
    }
  }

  /** What the turns of enemies or bosses leave of each stored entity: its kind,
      its lives and, outside the walking kind, everything; no identifier is lost. */
  ghost predicate Walked(a: Game, b: Game, kind: Kind) {
    && a.nextId <= b.nextId
    && forall id :: id in a.entities ==>
         && id in b.entities && b.entities[id].kind == a.entities[id].kind
         && b.entities[id].lives == a.entities[id].lives
         && (a.entities[id].kind != kind ==> b.entities[id] == a.entities[id])
  }

  lemma WalkedTrans(a: Game, b: Game, c: Game, kind: Kind)
    requires Walked(a, b, kind) && Walked(b, c, kind)
    ensures Walked(a, c, kind)
  {
  }

  lemma WalkedSame(g: Game, kind: Kind)
    ensures Walked(g, g, kind)
  {
  }

  lemma WalkWalked(g: Game, id: int, heading: int)
    requires id in g.entities
    ensures Walked(g, Walk(g, id, heading), g.entities[id].kind)
    ensures Walked(g, Advance(Walk(g, id, heading)), g.entities[id].kind)
    ensures id in Walk(g, id, heading).entities && id in Advance(Walk(g, id, heading)).entities
    ensures IdsOk(g) ==> IdsOk(Walk(g, id, heading)) && IdsOk(Advance(Walk(g, id, heading)))
    ensures Advance(Walk(g, id, heading)).limits == g.limits && Walk(g, id, heading).limits == g.limits
  {
  }

  lemma ShootWalked(g: Game, id: int, cap: nat, roll: bool, kind: Kind)
    requires IdsOk(g) && id in g.entities
    ensures Walked(g, Shoot(g, id, cap, roll), kind) && IdsOk(Shoot(g, id, cap, roll))
  {
    hide EnemyBullets;
  }

  lemma EnemyTurnWalked(g: Game, id: int, roll: bool)
    requires IdsOk(g) && id in g.entities && g.entities[id].kind == Enemy
    ensures Walked(g, EnemyTurn(g, id, roll), Enemy) && IdsOk(EnemyTurn(g, id, roll))
  {
    hide IdsOk, Walked, Walk, Advance, Shoot;
    var w := Advance(Walk(g, id, g.direction));
    WalkWalked(g, id, g.direction);
    ShootWalked(w, id, g.limits.maxEnemyBullets, roll, Enemy);
    WalkedTrans(g, w, EnemyTurn(g, id, roll), Enemy);
  }

  lemma BossTurnWalked(g: Game, id: int, heading: int, roll: bool)
    requires IdsOk(g) && id in g.entities && g.entities[id].kind == Boss
    ensures Walked(g, BossTurn(g, id, heading, roll), Boss) && IdsOk(BossTurn(g, id, heading, roll))
  {
    hide IdsOk, Walked, Walk, Shoot;
    var w := Walk(g, id, heading);
    WalkWalked(g, id, heading);
    ShootWalked(w, id, g.limits.maxEnemyBullets + 5, roll, Boss);
    WalkedTrans(g, w, BossTurn(g, id, heading, roll), Boss);
  }

  lemma WalkedKind(a: Game, b: Game, kind: Kind, id: int)
    requires Walked(a, b, kind) && id in a.entities
    ensures id in b.entities && b.entities[id].kind == a.entities[id].kind
  {
  }

  lemma {:induction false} EnemyTurnsWalked(g: Game, rolls: int -> bool, n: nat)
    requires IdsOk(g)
    ensures Walked(g, EnemyTurns(g, rolls, n), Enemy) && IdsOk(EnemyTurns(g, rolls, n))
  {
    hide IdsOk, Walked, EnemyTurn;
    WalkedSame(g, Enemy);
    if n > 0 {
      var before := EnemyTurns(g, rolls, n - 1);
      EnemyTurnsWalked(g, rolls, n - 1);
      if n - 1 in g.entities && g.entities[n - 1].kind == Enemy {
        WalkedKind(g, before, Enemy, n - 1);
        EnemyTurnWalked(before, n - 1, rolls(n - 1));
        WalkedTrans(g, before, EnemyTurn(before, n - 1, rolls(n - 1)), Enemy);
      }
    }
  }

  lemma UnsoundStep(g0: Game, a: Game, b: Game, movers: set<Kind>)
    requires !IdsOk(a)
    ensures Step(g0, a, b, movers)
  {
  }

  lemma {:induction false} EnemyTurnsStep(g0: Game, g: Game, rolls: int -> bool, n: nat)
    ensures Step(g0, g, EnemyTurns(g, rolls, n), {Enemy})
  {
    hide Step, EnemyTurn, IdsOk;
    if !IdsOk(g) {
      UnsoundStep(g0, g, EnemyTurns(g, rolls, n), {Enemy});
    } else if n == 0 {
      SameStep(g0, g);
      StepMore(g0, g, g, {}, {Enemy});
    } else {
      var before := EnemyTurns(g, rolls, n - 1);
      EnemyTurnsStep(g0, g, rolls, n - 1);
      EnemyTurnsWalked(g, rolls, n - 1);
      if n - 1 in g.entities && g.entities[n - 1].kind == Enemy {
        EnemyTurnStep(g0, before, n - 1, rolls(n - 1));
        StepTrans(g0, g, before, EnemyTurns(g, rolls, n), {Enemy});
      }
    }
  }

  lemma {:induction false} BossTurnsWalked(g: Game, input: Input, n: nat)
    requires IdsOk(g)
    ensures Walked(g, BossTurns(g, input, n), Boss) && IdsOk(BossTurns(g, input, n))
  {
    hide IdsOk, Walked, BossTurn;
    WalkedSame(g, Boss);
    if n > 0 {
      var before := BossTurns(g, input, n - 1);
      BossTurnsWalked(g, input, n - 1);
      if n - 1 in g.entities && g.entities[n - 1].kind == Boss {
        WalkedKind(g, before, Boss, n - 1);
        var heading, roll := input.bossHeading(n - 1) % 4, input.bossShoots(n - 1);
        BossTurnWalked(before, n - 1, heading, roll);
        WalkedTrans(g, before, BossTurn(before, n - 1, heading, roll), Boss);
      }
    }
  }

  lemma BossTurnStep(g0: Game, g: Game, id: int, heading: int, roll: bool)
    requires id in g.entities && g.entities[id].kind == Boss
    ensures Step(g0, g, BossTurn(g, id, heading, roll), {Boss})
  {
    hide Step;
    var w := Walk(g, id, heading);
    WalkStep(g0, g, id, heading);
    ShootStep(g0, w, id, g.limits.maxEnemyBullets + 5, roll);
    StepMore(g0, w, BossTurn(g, id, heading, roll), {}, {Boss});
    StepTrans(g0, g, w, BossTurn(g, id, heading, roll), {Boss});
  }

  lemma {:induction false} BossTurnsStep(g0: Game, g: Game, input: Input, n: nat)
    ensures Step(g0, g, BossTurns(g, input, n), {Boss})
  {
    hide Step, BossTurn, IdsOk;
    if !IdsOk(g) {
      UnsoundStep(g0, g, BossTurns(g, input, n), {Boss});
    } else if n == 0 {
      SameStep(g0, g);
      StepMore(g0, g, g, {}, {Boss});
    } else {
      var before := BossTurns(g, input, n - 1);
      BossTurnsStep(g0, g, input, n - 1);
      BossTurnsWalked(g, input, n - 1);
      if n - 1 in g.entities && g.entities[n - 1].kind == Boss {
        BossTurnStep(g0, before, n - 1, input.bossHeading(n - 1) % 4, input.bossShoots(n - 1));
        StepTrans(g0, g, before, BossTurns(g, input, n), {Boss});
      }
    }
  }

  lemma CheckWinStep(g0: Game, g: Game)
    ensures Step(g0, g, CheckWin(g), {})
  {
    SameStep(g0, g);
    EmitStep(g0, g, Win);
  }
}

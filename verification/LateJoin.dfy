/** Clients that join a running game, the life of bullets along a run, and the
    moment at which the server sends the full dump. The dump carries players,
    enemies, bosses and player bullets, but no enemy bullets. */
module LateJoin {
  import opened Options
  import opened Protocol
  import opened Playback
  import opened World
  import opened Rules
  import opened Steps
  import opened Updates
  import opened Replication

  /** What `n` turns leave of a surviving entity: its kind; if it is a bullet, it
      has flown one step for each turn and is still on the field. */
  predicate Survivor(e: Entity, f: Entity, n: nat) {
    && f.kind == e.kind
    && (e.kind == EnemyBullet ==> f.x == e.x - STEP * n && (n > 0 ==> 0 <= f.x))
    && (e.kind == Bullet ==> f.x == e.x + STEP * n && (n > 0 ==> f.x <= MAX_X))
  }

  lemma TurnSurvivor(s: Sender, t: Turn, id: int)
    requires ServerOk(s) && id in Updated(s, t).entities && id < s.game.nextId
    ensures id in s.game.entities && Survivor(s.game.entities[id], Updated(s, t).entities[id], 1)
  {
    hide Update;
    TurnStep(s, t);
    var a := AddAll(s.game, t.arrivals);
    var f := Updated(s, t).entities[id];
    if f.kind == EnemyBullet {
      EnemyBulletFlight(a, t.input, id);
    }
    if f.kind == Bullet {
      BulletFlight(a, t.input, id);
      BulletsOnField(a, t.input, id);
    }
  }

  /** Along every run, an entity that is older than the run and outlives it was
      there at the start, and is what the turns leave of it. */
  lemma {:induction false} RunSurvivor(s: Sender, turns: seq<Turn>, id: int)
    requires ServerOk(s) && id in RunServer(s, turns).game.entities && id < s.game.nextId
    ensures id in s.game.entities
    ensures Survivor(s.game.entities[id], RunServer(s, turns).game.entities[id], |turns|)
  {
    hide Next, ServerOk, Updated;
    if turns != [] {
      var front, t := turns[..|turns| - 1], turns[|turns| - 1];
      var before := RunServer(s, front);
      RunKeepsServer(s, front);
      NextGame(before, t);
      TurnSurvivor(before, t, id);
      RunSurvivor(s, front, id);
    }
  }

  /** Every player bullet ends every update on the field, old or new. */
  lemma BulletsOnField(g: Game, input: Input, id: int)
    requires Sound(g) && id in Update(g, input).entities && Update(g, input).entities[id].kind == Bullet
    ensures Update(g, input).entities[id].x <= MAX_X
  {
    hide Update, Opening, Collide, Fly, Step, Sound, Since, IdsOk, Survives;
    var c := Collide(Opening(g, input), BULLET_ENEMY);
    BeforeBulletsFlyStep(g, input);
    AfterBulletsFlyStep(g, input);
    FlySound(Begin(g), c, Bullet);
    NoNewBullets(g, input, id);
    Sounds(Begin(g), Fly(c, Bullet), Update(g, input), {Enemy, Boss, EnemyBullet});
    SurvivesAs(Fly(c, Bullet), Update(g, input), {Enemy, Boss, EnemyBullet}, id);
    FlownEntity(c, Bullet, id);
  }

  /** The state in which the enemies get their turns. */
  function BeforeEnemies(g: Game, input: Input): Game { Fly(Collide(Opening(g, input), BULLET_ENEMY), Bullet) }

  /** All that the stages after the player bullets' flight add are enemy bullets. */
  lemma LaterOnlyShots(g: Game, input: Input)
    requires Sound(g)
    ensures IdsOk(BeforeEnemies(g, input)) && OnlyShots(BeforeEnemies(g, input), Update(g, input))
  {
    hide Opening, Collide, Fly, MoveEnemies, MoveBoss, CheckWin, OnlyShots;
    var f := BeforeEnemies(g, input);
    var e := MoveEnemies(f, input.enemyTick, input.enemyShoots);
    var p := Collide(e, SHOT_PLAYER);
    var q := Fly(p, EnemyBullet);
    var c := Collide(q, BULLET_BOSS);
    var m := MoveBoss(c, input);
    BeforeBulletsFlyStep(g, input);
    FlySound(Begin(g), Collide(Opening(g, input), BULLET_ENEMY), Bullet);
    SoundIds(f);
    MovesAddShots(f, input);
    ShotsIds(f, e);
    OthersAddNothing(e, SHOT_PLAYER);
    OnlyShotsTrans(f, e, p);
    OthersAddNothing(p, SHOT_PLAYER);
    OnlyShotsTrans(f, p, q);
    OthersAddNothing(q, BULLET_BOSS);
    OnlyShotsTrans(f, q, c);
    MovesAddShots(c, input);
    OnlyShotsTrans(f, c, m);
    ShotsIds(f, m);
    OthersAddNothing(m, BULLET_BOSS);
    OnlyShotsTrans(f, m, CheckWin(m));
  }

  /** A player bullet live after an update was live when the bullets flew. */
  lemma NoNewBullets(g: Game, input: Input, id: int)
    requires Sound(g) && id in Update(g, input).entities && Update(g, input).entities[id].kind == Bullet
    ensures id < BeforeEnemies(g, input).nextId
  {
    hide BeforeEnemies, Update, OnlyShots;
    LaterOnlyShots(g, input);
    ShotsIds(BeforeEnemies(g, input), Update(g, input));
  }

  lemma ShotsIds(a: Game, b: Game)
    requires OnlyShots(a, b)
    ensures IdsOk(b) && forall id :: id in b.entities && b.entities[id].kind == Bullet ==> id < a.nextId
  {
  }

  /** Every entity of `b` that is newer than `a` is an enemy bullet. */
  ghost predicate OnlyShots(a: Game, b: Game) {
    && a.nextId <= b.nextId && IdsOk(b)
    && forall id :: id in b.entities ==>
         if id < a.nextId then id in a.entities && b.entities[id].kind == a.entities[id].kind
         else b.entities[id].kind == EnemyBullet
  }

  lemma OnlyShotsTrans(a: Game, b: Game, c: Game)
    requires OnlyShots(a, b) && OnlyShots(b, c)
    ensures OnlyShots(a, c)
  {
  }

  lemma ShootAdds(g: Game, id: int, cap: nat, roll: bool)
    requires IdsOk(g) && id in g.entities
    ensures OnlyShots(g, Shoot(g, id, cap, roll))
  {
    hide EnemyBullets;
  }

  lemma WalkAdds(g: Game, id: int, heading: int)
    requires IdsOk(g) && id in g.entities
    ensures OnlyShots(g, Walk(g, id, heading)) && OnlyShots(g, Advance(Walk(g, id, heading)))
  {
  }

  lemma OnlyShotsIds(a: Game, b: Game)
    requires OnlyShots(a, b)
    ensures IdsOk(b)
  {
  }

  lemma SameAdds(g: Game)
    requires IdsOk(g)
    ensures OnlyShots(g, g)
  {
  }

  lemma EnemyTurnAdds(g: Game, id: int, roll: bool)
    requires IdsOk(g)
    ensures OnlyShots(g, EnemyTurn(g, id, roll))
  {
    hide OnlyShots, IdsOk, Walk, Shoot;
    SameAdds(g);
    if id in g.entities {
      var w := Advance(Walk(g, id, g.direction));
      WalkAdds(g, id, g.direction);
      OnlyShotsIds(g, w);
      WalkStays(g, id, g.direction);
      ShootAdds(w, id, g.limits.maxEnemyBullets, roll);
      OnlyShotsTrans(g, w, EnemyTurn(g, id, roll));
    }
  }

  lemma WalkStays(g: Game, id: int, heading: int)
    requires id in g.entities
    ensures var w := Walk(g, id, heading);
            id in w.entities && id in Advance(w).entities && w.limits == g.limits && Advance(w).limits == g.limits
  {
  }

  lemma BossTurnAdds(g: Game, id: int, heading: int, roll: bool)
    requires IdsOk(g)
    ensures OnlyShots(g, BossTurn(g, id, heading, roll))
  {
    hide OnlyShots, IdsOk, Walk, Shoot;
    SameAdds(g);
    if id in g.entities {
      var w := Walk(g, id, heading);
      WalkAdds(g, id, heading);
      OnlyShotsIds(g, w);
      WalkStays(g, id, heading);
      ShootAdds(w, id, g.limits.maxEnemyBullets + 5, roll);
      OnlyShotsTrans(g, w, BossTurn(g, id, heading, roll));
    }
  }

  lemma {:induction false} EnemyTurnsAdd(g: Game, rolls: int -> bool, n: nat)
    requires IdsOk(g)
    ensures OnlyShots(g, EnemyTurns(g, rolls, n))
  {
    hide OnlyShots, IdsOk, EnemyTurn;
    SameAdds(g);
    if n > 0 {
      var before := EnemyTurns(g, rolls, n - 1);
      EnemyTurnsAdd(g, rolls, n - 1);
      OnlyShotsIds(g, before);
      EnemyTurnAdds(before, n - 1, rolls(n - 1));
      OnlyShotsTrans(g, before, EnemyTurn(before, n - 1, rolls(n - 1)));
    }
  }

  lemma {:induction false} BossTurnsAdd(g: Game, input: Input, n: nat)
    requires IdsOk(g)
    ensures OnlyShots(g, BossTurns(g, input, n))
  {
    hide OnlyShots, IdsOk, BossTurn;
    SameAdds(g);
    if n > 0 {
      var before := BossTurns(g, input, n - 1);
      BossTurnsAdd(g, input, n - 1);
      OnlyShotsIds(g, before);
      BossTurnAdds(before, n - 1, input.bossHeading(n - 1) % 4, input.bossShoots(n - 1));
      OnlyShotsTrans(g, before, BossTurn(before, n - 1, input.bossHeading(n - 1) % 4, input.bossShoots(n - 1)));
    }
  }

  lemma MovesAddShots(g: Game, input: Input)
    requires IdsOk(g)
    ensures OnlyShots(g, MoveEnemies(g, input.enemyTick, input.enemyShoots))
    ensures OnlyShots(g, MoveBoss(g, input))
  {
    EnemyTurnsAdd(g, input.enemyShoots, g.nextId);
    BossTurnsAdd(g, input, g.nextId);
  }

  lemma OthersAddNothing(g: Game, r: Reach)
    requires IdsOk(g)
    ensures OnlyShots(g, Collide(g, r)) && IdsOk(Collide(g, r))
    ensures OnlyShots(g, Fly(g, EnemyBullet)) && IdsOk(Fly(g, EnemyBullet))
    ensures OnlyShots(g, CheckWin(g))
  {
    hide FirstHit, Collide, Fly, CheckWin;
    CollideAddsNothing(g, r);
    FlyAddsNothing(g);
    WinAddsNothing(g);
  }

  lemma StrikeAddsNothing(g: Game, id: int, e: Entity)
    requires IdsOk(g) && (id in g.entities ==> e == g.entities[id])
    ensures OnlyShots(g, Strike(g, id, e))
  {
  }

  lemma CollideAddsNothing(g: Game, r: Reach)
    requires IdsOk(g)
    ensures OnlyShots(g, Collide(g, r)) && IdsOk(Collide(g, r))
  {
    hide FirstHit, Strike;
    match FirstHit(g.entities, r, g.nextId, g.nextId) {
      case None =>
      case Some((a, b)) =>
        FirstHitHits(g.entities, r, g.nextId, g.nextId);
        StrikeAddsNothing(g, a, g.entities[a]);
        var s := Strike(g, a, g.entities[a]);
        StrikeSpares(g, a, b, g.entities[a]);
        StrikeAddsNothing(s, b, g.entities[b]);
        OnlyShotsTrans(g, s, Collide(g, r));
    }
  }

  lemma StrikeSpares(g: Game, a: int, b: int, e: Entity)
    requires a != b && b in g.entities
    ensures b in Strike(g, a, e).entities && Strike(g, a, e).entities[b] == g.entities[b]
  {
  }

  lemma FlyAddsNothing(g: Game)
    requires IdsOk(g)
    ensures OnlyShots(g, Fly(g, EnemyBullet)) && IdsOk(Fly(g, EnemyBullet))
  {
    hide Departures;
  }

  lemma WinAddsNothing(g: Game)
    requires IdsOk(g)
    ensures OnlyShots(g, CheckWin(g))
  {
    hide Won;
  }

  /** The life of a bullet: an enemy bullet at `x` is gone once more than `x / 3`
      turns have passed, a player bullet once more than `(1500 - x) / 3` have. */
  lemma BulletsAreGone(s: Sender, turns: seq<Turn>, id: int)
    requires ServerOk(s) && id in s.game.entities && turns != []
    requires var e := s.game.entities[id];
             || (e.kind == EnemyBullet && e.x < STEP * |turns|)
             || (e.kind == Bullet && MAX_X < e.x + STEP * |turns|)
    ensures id !in RunServer(s, turns).game.entities
  {
    hide RunServer;
    if id in RunServer(s, turns).game.entities {
      RunSurvivor(s, turns, id);
    }
  }

  // ----- When the dump is sent -----

  lemma {:induction false} NewestIsHighest(s: Sender, turns: seq<Turn>)
    ensures s.newest <= RunServer(s, turns).newest
    ensures forall i :: 0 <= i < |turns| ==> turns[i].connected <= RunServer(s, turns).newest
    ensures RunServer(s, turns).newest == s.newest
            || exists i :: 0 <= i < |turns| && turns[i].connected == RunServer(s, turns).newest
  {
    hide Updated;
    if turns != [] {
      NewestIsHighest(s, turns[..|turns| - 1]);
    }
  }

  /** Some frame of the run carries the dump. */
  predicate DumpSent(s: Sender, turns: seq<Turn>) {
    exists i :: 0 <= i < |turns| && turns[i].connected > s.newest
  }

  lemma DumpInTurn(s: Sender, front: seq<Turn>, t: Turn)
    ensures DumpSent(s, front + [t]) <==> DumpSent(s, front) || t.connected > RunServer(s, front).newest
  {
    hide RunServer;
    var turns := front + [t];
    NewestIsHighest(s, front);
    assert forall i :: 0 <= i < |front| ==> turns[i] == front[i];
    if t.connected > s.newest {
      assert turns[|front|] == t;
      assert DumpSent(s, turns);
    }
  }

  /** The dump goes out exactly when more clients are connected than at every send
      before; a client that takes the place of one that left gets none. */
  lemma DumpNeedsRecordCount(s: Sender, turns: seq<Turn>, t: Turn)
    ensures t.connected > RunServer(s, turns).newest
            <==> t.connected > s.newest && forall i :: 0 <= i < |turns| ==> t.connected > turns[i].connected
  {
    NewestIsHighest(s, turns);
  }

  /** Two clients, one leaves, another joins: the newcomer is not served a dump. */
  lemma ReplacementGetsNoDump(s: Sender, two: Turn, one: Turn, again: Turn)
    requires s.newest == 0 && two.connected == 2 && one.connected == 1 && again.connected == 2
    ensures !(again.connected > RunServer(s, [two, one]).newest)
  {
    hide RunServer;
    assert [two, one][0].connected == 2;
    DumpNeedsRecordCount(s, [two, one], again);
  }

  // ----- Clients without sprites -----

  /** What a client that shows no entity at the start of a run still lacks at its
      end: the entities that lived through it, but for those a dump has carried. */
  function Lacking(s: Sender, turns: seq<Turn>): set<int> {
    set id | id in s.game.entities && id in RunServer(s, turns).game.entities
             && !(Dumped(s.game.entities[id].kind) && DumpSent(s, turns))
  }

  /** The enemy bullets of the start of a run that outlive it. */
  function OldShots(s: Sender, turns: seq<Turn>): set<int> {
    set id | id in s.game.entities && id in RunServer(s, turns).game.entities
             && s.game.entities[id].kind == EnemyBullet
  }

  predicate Lacks(s: Sender, turns: seq<Turn>, id: int) {
    && id in s.game.entities && id in RunServer(s, turns).game.entities
    && !(Dumped(s.game.entities[id].kind) && DumpSent(s, turns))
  }

  /** An entity live after one more turn was there before, of the same kind. */
  lemma StillThere(s: Sender, front: seq<Turn>, t: Turn, id: int)
    requires ServerOk(s) && id in s.game.entities && id in Updated(RunServer(s, front), t).entities
    ensures id in RunServer(s, front).game.entities
    ensures Updated(RunServer(s, front), t).entities[id].kind == s.game.entities[id].kind
  {
    hide ServerOk, Next, Updated, RunServer;
    RunKeepsServer(s, front);
    ServerIds(s);
    TurnSurvivor(RunServer(s, front), t, id);
    RunSurvivor(s, front, id);
  }

  lemma LacksNext(s: Sender, front: seq<Turn>, t: Turn, id: int)
    requires ServerOk(s)
    ensures Lacks(s, front + [t], id)
            <==> id in StillMissing(Updated(RunServer(s, front), t), Lacking(s, front),
                                    t.connected > RunServer(s, front).newest)
  {
    hide ServerOk, Next, Updated, DumpSent;
    assert (front + [t])[..|front|] == front;
    NextGame(RunServer(s, front), t);
    DumpInTurn(s, front, t);
    if id in s.game.entities && id in Updated(RunServer(s, front), t).entities {
      StillThere(s, front, t, id);
    }
  }

  /** One more turn: what is lacked then was lacked before. */
  lemma LackingNext(s: Sender, front: seq<Turn>, t: Turn)
    requires ServerOk(s)
    ensures Lacking(s, front + [t])
            == StillMissing(Updated(RunServer(s, front), t), Lacking(s, front),
                            t.connected > RunServer(s, front).newest)
  {
    hide ServerOk, Next, Updated, DumpSent, StillMissing, RunServer;
    var l := Lacking(s, front + [t]);
    var r := StillMissing(Updated(RunServer(s, front), t), Lacking(s, front), t.connected > RunServer(s, front).newest);
    forall id ensures id in l <==> id in r {
      LacksNext(s, front, t, id);
      assert id in l <==> Lacks(s, front + [t], id);
    }
  }

  lemma LackingFirst(s: Sender)
    ensures Lacking(s, []) == s.game.entities.Keys
  {
    assert !DumpSent(s, []);
    assert forall id :: id in s.game.entities <==> id in Lacking(s, []);
  }

  /** Along every run a client that had no entity is missing exactly what it lacks. */
  lemma {:induction false} MissingAlongRun(s: Sender, turns: seq<Turn>)
    requires ServerOk(s)
    ensures RunMissing(s, s.game.entities.Keys, turns) == Lacking(s, turns)
  {
    hide ServerOk, Next, Updated, Lacking, StillMissing;
    if turns == [] {
      LackingFirst(s);
    } else {
      var front, t := turns[..|turns| - 1], turns[|turns| - 1];
      assert turns == front + [t];
      MissingAlongRun(s, front);
      LackingNext(s, front, t);
    }
  }

  /** After a dump nothing is lacked but old enemy bullets. */
  lemma DumpCarriesTheRest(s: Sender, turns: seq<Turn>)
    requires IdsOk(s.game) && DumpSent(s, turns)
    ensures Lacking(s, turns) == OldShots(s, turns)
  {
    hide RunServer, DumpSent;
    assert forall id :: id in s.game.entities ==>
      (Dumped(s.game.entities[id].kind) <==> s.game.entities[id].kind != EnemyBullet);
    assert forall id :: id in Lacking(s, turns) <==> id in OldShots(s, turns);
  }

  lemma ServerIds(s: Sender)
    requires ServerOk(s)
    ensures IdsOk(s.game)
  {
  }

  /** A client that shows no entity and joins with the dump is in step from its
      first frame on, but for the old enemy bullets, and completely in step once
      these, which fly one step a turn, have left the field. */
  lemma LateJoiner(s: Sender, ss: seq<Sprite>, turns: seq<Turn>)
    requires ServerOk(s) && Representable(RunServer(s, turns))
    requires turns != [] && turns[0].connected > s.newest
    requires forall id: nat :: Lookup(ss, id) == None
    ensures var last := RunServer(s, turns).game;
            && (forall id: nat :: Lookup(RunClient(s, ss, turns), id) == Shown(last.entities, OldShots(s, turns), id))
            && (forall id :: id in OldShots(s, turns) ==> STEP * |turns| <= s.game.entities[id].x)
  {
    hide RunServer, RunClient, RunMissing, ServerOk, Lacking;
    StartsOut(ss, s.game);
    RunKeepsStep(s, ss, s.game.entities.Keys, turns);
    MissingAlongRun(s, turns);
    ServerIds(s);
    assert DumpSent(s, turns);
    DumpCarriesTheRest(s, turns);
    forall id | id in OldShots(s, turns)
      ensures STEP * |turns| <= s.game.entities[id].x
    {
      if s.game.entities[id].x < STEP * |turns| {
        BulletsAreGone(s, turns, id);
      }
    }
  }

  lemma StartsOut(ss: seq<Sprite>, g: Game)
    requires forall id: nat :: Lookup(ss, id) == None
    ensures InStep(ss, g, g.entities.Keys)
  {
  }
}

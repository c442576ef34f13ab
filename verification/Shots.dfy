/** The cap on enemy bullets: five more than the enemies' own cap, and never more. */
module Shots {
  import opened Protocol
  import opened World
  import opened Rules
  import opened Steps
  import opened Replication
  import opened Victory

  ghost predicate Capped(g: Game) { EnemyBullets(g) <= g.limits.maxEnemyBullets + 5 }

  /** Every entity of a kind in `b` is one of `a`. */
  ghost predicate Fewer(kind: Kind, a: Game, b: Game) {
    && a.nextId <= b.nextId && b.limits == a.limits && IdsOk(b)
    && forall id :: id in b.entities && b.entities[id].kind == kind ==> id in a.entities && a.entities[id].kind == kind
  }

  lemma {:induction false} CountFewer(es: map<int, Entity>, fs: map<int, Entity>, n: nat)
    requires forall id :: id in fs && fs[id].kind == EnemyBullet ==> id in es && es[id].kind == EnemyBullet
    ensures Count(fs, EnemyBullet, n) <= Count(es, EnemyBullet, n)
  {
    if n > 0 { CountFewer(es, fs, n - 1); }
  }

  lemma {:induction false} CountBeyond(es: map<int, Entity>, kind: Kind, m: nat, n: nat)
    requires m <= n && forall id :: id in es ==> id < m
    ensures Count(es, kind, n) == Count(es, kind, m)
  {
    if m < n { CountBeyond(es, kind, m, n - 1); }
  }

  lemma FewerKeepsCap(a: Game, b: Game)
    requires Fewer(EnemyBullet, a, b) && IdsOk(a)
    ensures EnemyBullets(b) <= EnemyBullets(a) && (Capped(a) ==> Capped(b))
  {
    CountFewer(a.entities, b.entities, b.nextId);
    CountBeyond(a.entities, EnemyBullet, a.nextId, b.nextId);
  }

  lemma {:induction false} InitializePlayersFewer(kind: Kind, g: Game, players: int)
    requires IdsOk(g) && (kind == EnemyBullet || kind == Enemy)
    ensures Fewer(kind, g, InitializePlayers(g, players))
    decreases players - g.spawned
  {
    if g.spawned < players { InitializePlayersFewer(kind, SpawnPlayer(g), players); }
  }

  lemma {:induction false} ActAllFewer(kind: Kind, g: Game, actions: seq<Action>)
    requires IdsOk(g) && (kind == EnemyBullet || kind == Enemy)
    ensures Fewer(kind, g, ActAll(g, actions))
  {
    if actions != [] { ActAllFewer(kind, g, actions[..|actions| - 1]); }
  }

  lemma {:induction false} RemoveAllFewer(kind: Kind, g: Game, clients: seq<int>)
    requires IdsOk(g) && (kind == EnemyBullet || kind == Enemy)
    ensures Fewer(kind, g, RemoveAll(g, clients))
  {
    if clients != [] { RemoveAllFewer(kind, g, clients[..|clients| - 1]); }
  }

  lemma {:induction false} SpawnManyFewer(g: Game, kind: Kind, n: nat, place: int -> (int, int))
    requires IdsOk(g) && (kind == Enemy || kind == Boss)
    ensures Fewer(EnemyBullet, g, SpawnMany(g, kind, n, place))
  {
    if n > 0 { SpawnManyFewer(g, kind, n - 1, place); }
  }

  lemma OpeningFewer(g: Game, input: Input)
    requires IdsOk(g)
    ensures Fewer(EnemyBullet, g, Opening(g, input))
  {
    hide ActAll, RemoveAll, SpawnMany, InitializePlayers;
    var b := Begin(g);
    var g1 := InitializePlayers(b, input.players);
    var g2 := ProcessActions(g1);
    var g3 := CheckDisconnected(g2, input.clients);
    InitializePlayersFewer(EnemyBullet, b, input.players);
    assert Fewer(EnemyBullet, g, g1);
    ActAllFewer(EnemyBullet, g1, g1.actions);
    assert Fewer(EnemyBullet, g, g2);
    RemoveAllFewer(EnemyBullet, g2, Gone(g2.previous, input.clients));
    assert Fewer(EnemyBullet, g, g3);
    SpawnManyFewer(g3, Enemy, g3.limits.enemiesPerWave, input.place);
    SpawnManyFewer(g3, Boss, g3.limits.bosses, input.place);
  }

  lemma CollideFewer(kind: Kind, g: Game, r: Reach)
    requires IdsOk(g)
    ensures Fewer(kind, g, Collide(g, r))
  {
    hide FirstHit, Strike;
    match FirstHit(g.entities, r, g.nextId, g.nextId) {
      case None =>
      case Some((a, b)) =>
        FirstHitHits(g.entities, r, g.nextId, g.nextId);
        StrikeFewer(kind, g, a, g.entities[a]);
        StrikeFewer(kind, Strike(g, a, g.entities[a]), b, g.entities[b]);
    }
  }

  lemma StrikeFewer(kind: Kind, g: Game, id: int, e: Entity)
    requires IdsOk(g) && id in g.entities && e == g.entities[id]
    ensures Fewer(kind, g, Strike(g, id, e))
    ensures forall i :: i != id && i in g.entities ==>
              i in Strike(g, id, e).entities && Strike(g, id, e).entities[i] == g.entities[i]
  {
  }

  /** A shot is fired only below the cap it is given. */
  lemma ShootCapped(g: Game, id: int, cap: nat, roll: bool)
    requires IdsOk(g) && id in g.entities && cap <= g.limits.maxEnemyBullets + 5 && Capped(g)
    ensures var b := Shoot(g, id, cap, roll); IdsOk(b) && Capped(b) && b.limits == g.limits
  {
    var b := Shoot(g, id, cap, roll);
    if EnemyBullets(g) < cap && roll {
      CountSame(g.entities, b.entities, EnemyBullet, g.nextId);
    }
  }

  lemma {:induction false} CountSame(es: map<int, Entity>, fs: map<int, Entity>, kind: Kind, n: nat)
    requires forall id :: 0 <= id < n ==> (id in es && es[id].kind == kind <==> id in fs && fs[id].kind == kind)
    ensures Count(fs, kind, n) == Count(es, kind, n)
  {
    if n > 0 { CountSame(es, fs, kind, n - 1); }
  }

  lemma {:induction false} EnemyTurnsCapped(g: Game, rolls: int -> bool, n: nat)
    requires IdsOk(g) && Capped(g)
    ensures var b := EnemyTurns(g, rolls, n); IdsOk(b) && Capped(b) && b.limits == g.limits
  {
    hide Shoot, Capped;
    if n > 0 {
      var before := EnemyTurns(g, rolls, n - 1);
      EnemyTurnsCapped(g, rolls, n - 1);
      if n - 1 in before.entities {
        var w := Advance(Walk(before, n - 1, before.direction));
        FewerKeepsCap(before, w);
        ShootCapped(w, n - 1, w.limits.maxEnemyBullets, rolls(n - 1));
      }
    }
  }

  lemma {:induction false} BossTurnsCapped(g: Game, input: Input, n: nat)
    requires IdsOk(g) && Capped(g)
    ensures var b := BossTurns(g, input, n); IdsOk(b) && Capped(b) && b.limits == g.limits
  {
    hide Shoot, Capped;
    if n > 0 {
      var before := BossTurns(g, input, n - 1);
      BossTurnsCapped(g, input, n - 1);
      if n - 1 in before.entities {
        var w := Walk(before, n - 1, input.bossHeading(n - 1) % 4);
        FewerKeepsCap(before, w);
        ShootCapped(w, n - 1, w.limits.maxEnemyBullets + 5, input.bossShoots(n - 1));
      }
    }
  }

  lemma UpdateCapped(g: Game, input: Input)
    requires IdsOk(g) && Capped(g)
    ensures Capped(Update(g, input))
  {
    hide Opening, Collide, Fly, EnemyTurns, BossTurns, Capped, IdsOk, Fewer;
    OpeningFewer(g, input);
    var o := Opening(g, input);
    var c := Collide(o, BULLET_ENEMY);
    var f := Fly(c, Bullet);
    var e := MoveEnemies(f, input.enemyTick, input.enemyShoots);
    var p := Collide(e, SHOT_PLAYER);
    var q := Middle(g, input);
    var k := Collide(q, BULLET_BOSS);
    FewerIds(g, o);
    FewerKeepsCap(g, o);
    CollideFewer(EnemyBullet, o, BULLET_ENEMY);
    FewerIds(o, c);
    FewerKeepsCap(o, c);
    FlyFewer(EnemyBullet, c, Bullet);
    FewerIds(c, f);
    FewerKeepsCap(c, f);
    EnemyTurnsCapped(f, input.enemyShoots, f.nextId);
    CollideFewer(EnemyBullet, e, SHOT_PLAYER);
    FewerIds(e, p);
    FewerKeepsCap(e, p);
    FlyFewer(EnemyBullet, p, EnemyBullet);
    FewerIds(p, q);
    FewerKeepsCap(p, q);
    CollideFewer(EnemyBullet, q, BULLET_BOSS);
    FewerIds(q, k);
    FewerKeepsCap(q, k);
    BossTurnsCapped(k, input, k.nextId);
    WinCapped(MoveBoss(k, input));
  }

  lemma FewerIds(a: Game, b: Game)
    requires Fewer(EnemyBullet, a, b)
    ensures IdsOk(b)
  {
  }

  lemma FlyFewer(kind: Kind, g: Game, flying: Kind)
    requires IdsOk(g) && flying != Boss
    ensures Fewer(kind, g, Fly(g, flying))
  {
  }

  lemma WinCapped(g: Game)
    requires Capped(g)
    ensures Capped(CheckWin(g))
  {
  }

  /** Along every run there are never more enemy bullets than the cap and five. */
  lemma {:induction false} RunCapped(s: Sender, turns: seq<Turn>)
    requires ServerOk(s) && Capped(s.game)
    ensures Capped(RunServer(s, turns).game)
  {
    hide Next, ServerOk, Updated, Capped;
    if turns != [] {
      var front, t := turns[..|turns| - 1], turns[|turns| - 1];
      RunCapped(s, front);
      RunKeepsServer(s, front);
      NextGame(RunServer(s, front), t);
      TurnCapped(RunServer(s, front), t);
    }
  }

  lemma TurnCapped(s: Sender, t: Turn)
    requires ServerOk(s) && Capped(s.game)
    ensures Capped(Updated(s, t))
  {
    hide Update;
    AddAllKeeps(s.game, t.arrivals);
    UpdateCapped(AddAll(s.game, t.arrivals), t.input);
  }

  // ----- The way to victory along a run -----

  function RunHits(s: Sender, turns: seq<Turn>): nat {
    if turns == [] then 0
    else
      var front, t := turns[..|turns| - 1], turns[|turns| - 1];
      RunHits(s, front) + Score(AddAll(RunServer(s, front).game, t.arrivals), t.input)
  }

  lemma TurnHits(s: Sender, t: Turn)
    requires ServerOk(s)
    ensures HitsLeft(Updated(s, t)) == HitsLeft(s.game) - Score(AddAll(s.game, t.arrivals), t.input)
    ensures Win in Updated(s, t).frame <==> Won(Updated(s, t))
    ensures Updated(s, t).limits == s.game.limits
  {
    hide Update, Score, Won;
    TurnStep(s, t);
    AddAllKeeps(s.game, t.arrivals);
    Conservation(AddAll(s.game, t.arrivals), t.input);
    BookHits(s.game, AddAll(s.game, t.arrivals));
  }

  /** Along every run, the hits scored and the hits left add up to a constant. */
  lemma {:induction false} RunConservation(s: Sender, turns: seq<Turn>)
    requires ServerOk(s)
    ensures HitsLeft(RunServer(s, turns).game) + RunHits(s, turns) == HitsLeft(s.game)
    ensures RunServer(s, turns).game.limits == s.game.limits
  {
    hide Next, ServerOk, Updated, HitsLeft, Score;
    if turns != [] {
      var front, t := turns[..|turns| - 1], turns[|turns| - 1];
      RunConservation(s, front);
      RunKeepsServer(s, front);
      NextGame(RunServer(s, front), t);
      TurnHits(RunServer(s, front), t);
    }
  }

  /** From the start of the game on, the frame after any turn announces the win
      exactly when the run has scored all the hits of all waves and bosses. */
  lemma WinAfterAllHits(limits: Limits, connected: nat, turns: seq<Turn>)
    requires 0 < limits.enemiesPerWave && turns != []
    ensures Win in RunServer(InitialServer(limits, connected), turns).game.frame
            <==> RunHits(InitialServer(limits, connected), turns)
                 == limits.enemiesPerWave * limits.waves + 3 * limits.bosses * limits.bosses
  {
    hide RunHits, Updated, HitsLeft, Next;
    var s := InitialServer(limits, connected);
    var front, t := turns[..|turns| - 1], turns[|turns| - 1];
    InitialHits(limits);
    assert ServerOk(s);
    RunConservation(s, turns);
    RunKeepsServer(s, front);
    RunKeepsServer(s, turns);
    TurnHits(RunServer(s, front), t);
    NextGame(RunServer(s, front), t);
    WonWhenNothingLeft(RunServer(s, turns).game);
  }

  lemma InitialHits(limits: Limits)
    ensures HitsLeft(InitialGame(limits)) == limits.enemiesPerWave * limits.waves + 3 * limits.bosses * limits.bosses
  {
  }
}

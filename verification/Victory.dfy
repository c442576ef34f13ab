/** The way to victory: what is left to shoot only shrinks, one hit at a time,
    and the win is announced exactly when nothing is left. */
module Victory {
  import opened Options
  import opened Protocol
  import opened World
  import opened Rules
  import opened Steps
  import opened Updates

  /** The hits one stored entity still takes: an enemy one, a boss its lives. */
  function Threat(es: map<int, Entity>, id: int): int {
    if id !in es then 0
    else if es[id].kind == Enemy then 1
    else if es[id].kind == Boss then es[id].lives
    else 0
  }

  function Threats(es: map<int, Entity>, n: nat): int {
    if n == 0 then 0 else Threats(es, n - 1) + Threat(es, n - 1)
  }

  /** The hits the live entities still take. */
  function Alive(g: Game): int { Threats(g.entities, g.nextId) }

  /** The hits the waves and bosses still to come will take. */
  function Coming(g: Game): int {
    g.limits.enemiesPerWave * (g.limits.waves - g.wave)
    + 3 * g.limits.bosses * (g.limits.bosses - g.boss)
  }

  /** All the hits that are left before the game is won. */
  function HitsLeft(g: Game): int { Coming(g) + Alive(g) }

  lemma {:induction false} ThreatsSame(es: map<int, Entity>, fs: map<int, Entity>, n: nat)
    requires forall id :: 0 <= id < n ==> Threat(fs, id) == Threat(es, id)
    ensures Threats(fs, n) == Threats(es, n)
  {
    if n > 0 { ThreatsSame(es, fs, n - 1); }
  }

  lemma {:induction false} ThreatsChange(es: map<int, Entity>, fs: map<int, Entity>, id: nat, n: nat)
    requires id < n && forall i :: 0 <= i < n && i != id ==> Threat(fs, i) == Threat(es, i)
    ensures Threats(fs, n) == Threats(es, n) + Threat(fs, id) - Threat(es, id)
  {
    if id == n - 1 {
      ThreatsSame(es, fs, n - 1);
    } else {
      ThreatsChange(es, fs, id, n - 1);
    }
  }

  lemma {:induction false} ThreatsBeyond(es: map<int, Entity>, m: nat, n: nat)
    requires m <= n && forall id :: m <= id < n ==> Threat(es, id) == 0
    ensures Threats(es, n) == Threats(es, m)
  {
    if m < n { ThreatsBeyond(es, m, n - 1); }
  }

  /** No live entity threatens less than nothing; none threatens exactly when both kinds are cleared. */
  lemma {:induction false} NoThreats(g: Game, n: nat)
    requires IdsOk(g)
    ensures 0 <= Threats(g.entities, n)
    ensures Threats(g.entities, n) == 0 <==> forall id :: 0 <= id < n ==> Threat(g.entities, id) == 0
  {
    if n > 0 { NoThreats(g, n - 1); }
  }

  // ----- Stages that leave the hits alone -----

  /** No threat, counter or announcement of victory differs between the two states. */
  ghost predicate Peaceful(a: Game, b: Game) {
    && a.nextId <= b.nextId && IdsOk(b)
    && b.limits == a.limits && b.wave == a.wave && b.boss == a.boss
    && (forall id :: 0 <= id < b.nextId ==> Threat(b.entities, id) == Threat(a.entities, id))
    && (Win in b.frame <==> Win in a.frame)
  }

  lemma PeacefulTrans(a: Game, b: Game, c: Game)
    requires Peaceful(a, b) && Peaceful(b, c) && IdsOk(a)
    ensures Peaceful(a, c)
  {
    assert forall id :: b.nextId <= id ==> Threat(b.entities, id) == 0 && Threat(a.entities, id) == 0;
  }

  lemma PeacefulHits(a: Game, b: Game)
    requires Peaceful(a, b) && IdsOk(a)
    ensures HitsLeft(b) == HitsLeft(a) && (Win in b.frame <==> Win in a.frame) && IdsOk(b)
    ensures b.wave == a.wave && b.limits == a.limits
  {
    ThreatsSame(a.entities, b.entities, b.nextId);
    ThreatsBeyond(a.entities, a.nextId, b.nextId);
  }

  lemma {:induction false} InitializePlayersPeaceful(g: Game, players: int)
    requires IdsOk(g)
    ensures Peaceful(g, InitializePlayers(g, players))
    decreases players - g.spawned
  {
    if g.spawned < players {
      assert Peaceful(g, SpawnPlayer(g));
      InitializePlayersPeaceful(SpawnPlayer(g), players);
      PeacefulTrans(g, SpawnPlayer(g), InitializePlayers(g, players));
    }
  }

  lemma ActPeaceful(g: Game, a: Action)
    requires IdsOk(g)
    ensures Peaceful(g, Act(g, a))
  {
  }

  lemma {:induction false} ActAllPeaceful(g: Game, actions: seq<Action>)
    requires IdsOk(g)
    ensures Peaceful(g, ActAll(g, actions))
  {
    hide Act;
    if actions != [] {
      var front := ActAll(g, actions[..|actions| - 1]);
      ActAllPeaceful(g, actions[..|actions| - 1]);
      ActPeaceful(front, actions[|actions| - 1]);
      PeacefulTrans(g, front, ActAll(g, actions));
    }
  }

  /** Removing a client's player harms no enemy and no boss. */
  lemma {:induction false} RemoveAllPeaceful(g: Game, clients: seq<int>)
    requires IdsOk(g) && OwnersOk(g)
    ensures Peaceful(g, RemoveAll(g, clients)) && OwnersOk(RemoveAll(g, clients))
  {
    if clients != [] {
      var front := RemoveAll(g, clients[..|clients| - 1]);
      RemoveAllPeaceful(g, clients[..|clients| - 1]);
      RemovePlayerPeaceful(front, clients[|clients| - 1]);
      PeacefulTrans(g, front, RemoveAll(g, clients));
    }
  }

  lemma RemovePlayerPeaceful(g: Game, client: int)
    requires IdsOk(g) && OwnersOk(g)
    ensures Peaceful(g, RemovePlayer(g, client)) && OwnersOk(RemovePlayer(g, client))
  {
  }

  lemma FlyPeaceful(g: Game, kind: Kind)
    requires IdsOk(g) && kind != Boss && kind != Enemy
    ensures Peaceful(g, Fly(g, kind))
  {
    DeparturesAreQuiet(g.entities, kind, g.nextId);
  }

  lemma {:induction false} DeparturesAreQuiet(es: map<int, Entity>, kind: Kind, n: nat)
    ensures Win !in Departures(es, kind, n)
  {
    if n > 0 { DeparturesAreQuiet(es, kind, n - 1); }
  }

  lemma ShootPeaceful(g: Game, id: int, cap: nat, roll: bool)
    requires IdsOk(g) && id in g.entities
    ensures Peaceful(g, Shoot(g, id, cap, roll))
  {
    hide EnemyBullets;
  }

  lemma WalkPeaceful(g: Game, id: int, heading: int)
    requires IdsOk(g) && id in g.entities
    ensures Peaceful(g, Walk(g, id, heading)) && Peaceful(g, Advance(Walk(g, id, heading)))
  {
  }

  lemma PeacefulIds(a: Game, b: Game)
    requires Peaceful(a, b)
    ensures IdsOk(b)
  {
  }

  lemma PeacefulSame(g: Game)
    requires IdsOk(g)
    ensures Peaceful(g, g)
  {
  }

  lemma EnemyTurnPeaceful(g: Game, id: int, roll: bool)
    requires IdsOk(g)
    ensures Peaceful(g, EnemyTurn(g, id, roll))
  {
    hide Peaceful, IdsOk, Walk, Advance, Shoot;
    PeacefulSame(g);
    if id in g.entities {
      var w := Advance(Walk(g, id, g.direction));
      WalkPeaceful(g, id, g.direction);
      WalkWalked(g, id, g.direction);
      ShootPeaceful(w, id, g.limits.maxEnemyBullets, roll);
      PeacefulTrans(g, w, EnemyTurn(g, id, roll));
    }
  }

  lemma BossTurnPeaceful(g: Game, id: int, heading: int, roll: bool)
    requires IdsOk(g)
    ensures Peaceful(g, BossTurn(g, id, heading, roll))
  {
    hide Peaceful, IdsOk, Walk, Shoot;
    PeacefulSame(g);
    if id in g.entities {
      var w := Walk(g, id, heading);
      WalkPeaceful(g, id, heading);
      WalkWalked(g, id, heading);
      ShootPeaceful(w, id, g.limits.maxEnemyBullets + 5, roll);
      PeacefulTrans(g, w, BossTurn(g, id, heading, roll));
    }
  }

  lemma {:induction false} EnemyTurnsPeaceful(g: Game, rolls: int -> bool, n: nat)
    requires IdsOk(g)
    ensures Peaceful(g, EnemyTurns(g, rolls, n))
  {
    hide Peaceful, IdsOk, EnemyTurn;
    PeacefulSame(g);
    if n > 0 {
      var before := EnemyTurns(g, rolls, n - 1);
      EnemyTurnsPeaceful(g, rolls, n - 1);
      PeacefulIds(g, before);
      EnemyTurnPeaceful(before, n - 1, rolls(n - 1));
      PeacefulTrans(g, before, EnemyTurn(before, n - 1, rolls(n - 1)));
    }
  }

  lemma {:induction false} BossTurnsPeaceful(g: Game, input: Input, n: nat)
    requires IdsOk(g)
    ensures Peaceful(g, BossTurns(g, input, n))
  {
    hide Peaceful, IdsOk, BossTurn;
    PeacefulSame(g);
    if n > 0 {
      var before := BossTurns(g, input, n - 1);
      BossTurnsPeaceful(g, input, n - 1);
      PeacefulIds(g, before);
      var heading, roll := input.bossHeading(n - 1) % 4, input.bossShoots(n - 1);
      BossTurnPeaceful(before, n - 1, heading, roll);
      PeacefulTrans(g, before, BossTurn(before, n - 1, heading, roll));
    }
  }

  // ----- Stages that change the hits -----

  function Toughness(kind: Kind): nat { if kind == Enemy then 1 else 3 }

  lemma MulMore(n: nat, k: nat)
    requires n > 0
    ensures n * k == (n - 1) * k + k
  {
  }

  lemma {:induction false} SpawnManyThreats(g: Game, kind: Kind, n: nat, place: int -> (int, int))
    requires IdsOk(g) && (kind == Enemy || kind == Boss)
    ensures var s := SpawnMany(g, kind, n, place);
            && IdsOk(s) && s.limits == g.limits && s.wave == g.wave && s.boss == g.boss
            && Alive(s) == Alive(g) + n * Toughness(kind)
            && (Win in s.frame <==> Win in g.frame)
  {
    hide IdsOk, Alive, Spawn, Toughness;
    if n > 0 {
      var front := SpawnMany(g, kind, n - 1, place);
      SpawnManyThreats(g, kind, n - 1, place);
      SpawnThreat(front, kind, place(n - 1).0, place(n - 1).1);
      MulMore(n, Toughness(kind));
    }
  }

  lemma SpawnThreat(g: Game, kind: Kind, x: int, y: int)
    requires IdsOk(g) && (kind == Enemy || kind == Boss)
    ensures var s := Spawn(g, kind, x, y);
            && IdsOk(s) && s.limits == g.limits && s.wave == g.wave && s.boss == g.boss
            && Alive(s) == Alive(g) + Toughness(kind)
            && (Win in s.frame <==> Win in g.frame)
  {
    ThreatsSame(g.entities, Spawn(g, kind, x, y).entities, g.nextId);
  }

  lemma MulLess(a: int, b: int)
    ensures a * (b - 1) == a * b - a
  {
  }

  /** A wave or a boss moves hits from those to come to those alive. */
  lemma SpawnHostilesHits(g: Game, place: int -> (int, int))
    requires IdsOk(g)
    ensures var s := SpawnHostiles(g, place);
            && IdsOk(s) && HitsLeft(s) == HitsLeft(g) && (Win in s.frame <==> Win in g.frame)
            && g.wave <= s.wave && s.limits == g.limits
  {
    hide Alive, SpawnMany;
    var e, b := g.limits.enemiesPerWave, g.limits.bosses;
    SpawnManyThreats(g, Enemy, e, place);
    SpawnManyThreats(g, Boss, b, place);
    WaveComing(SpawnMany(g, Enemy, e, place));
    BossComing(SpawnMany(g, Boss, b, place));
    CountersAlive(SpawnMany(g, Enemy, e, place), SpawnWave(g, place));
    CountersAlive(SpawnMany(g, Boss, b, place), SpawnBosses(g, place));
  }

  lemma WaveComing(g: Game)
    ensures Coming(g.(wave := g.wave + 1)) == Coming(g) - g.limits.enemiesPerWave
  {
    MulLess(g.limits.enemiesPerWave, g.limits.waves - g.wave);
    assert g.limits.waves - (g.wave + 1) == g.limits.waves - g.wave - 1;
  }

  lemma BossComing(g: Game)
    ensures Coming(g.(boss := g.boss + 1)) == Coming(g) - 3 * g.limits.bosses
  {
    MulLess(3 * g.limits.bosses, g.limits.bosses - g.boss);
    assert g.limits.bosses - (g.boss + 1) == g.limits.bosses - g.boss - 1;
  }

  lemma CountersAlive(a: Game, b: Game)
    requires b == a.(wave := b.wave, boss := b.boss)
    ensures Alive(b) == Alive(a) && (IdsOk(a) ==> IdsOk(b))
    ensures a.wave == b.wave ==> Coming(b) == Coming(a.(boss := b.boss))
    ensures a.boss == b.boss ==> Coming(b) == Coming(a.(wave := b.wave))
  {
    assert a.wave == b.wave ==> b == a.(boss := b.boss);
    assert a.boss == b.boss ==> b == a.(wave := b.wave);
  }

  /** A strike takes the threat of an enemy, one life of a boss, and nothing else. */
  lemma StrikeHits(g: Game, id: int, e: Entity)
    requires IdsOk(g) && id in g.entities && e == g.entities[id]
    ensures var s := Strike(g, id, e);
            && IdsOk(s) && s.limits == g.limits && s.wave == g.wave && s.boss == g.boss && s.nextId == g.nextId
            && Alive(s) == Alive(g) - (if e.kind == Enemy || e.kind == Boss then 1 else 0)
            && (forall i :: i != id ==> (i in s.entities <==> i in g.entities))
            && (forall i :: i != id && i in g.entities ==> s.entities[i] == g.entities[i])
            && (Win in s.frame <==> Win in g.frame)
  {
    ThreatsChange(g.entities, Strike(g, id, e).entities, id, g.nextId);
  }

  predicate Struck(g: Game, r: Reach) { FirstHit(g.entities, r, g.nextId, g.nextId).Some? }

  /** A collision check takes one hit if a bullet strikes an enemy or a boss, none otherwise. */
  lemma CollideHits(g: Game, r: Reach)
    requires IdsOk(g) && r.a != Enemy && r.a != Boss
    ensures var s := Collide(g, r);
            && IdsOk(s) && (Win in s.frame <==> Win in g.frame)
            && s.wave == g.wave && s.limits == g.limits
            && HitsLeft(s) == HitsLeft(g) - (if Struck(g, r) && (r.b == Enemy || r.b == Boss) then 1 else 0)
  {
    hide Alive, Strike;
    FirstHitHits(g.entities, r, g.nextId, g.nextId);
    match FirstHit(g.entities, r, g.nextId, g.nextId) {
      case None =>
      case Some((a, b)) =>
        StrikeHits(g, a, g.entities[a]);
        StrikeHits(Strike(g, a, g.entities[a]), b, g.entities[b]);
    }
  }

  // ----- Whole updates -----

  lemma OpeningHits(g: Game, input: Input)
    requires Sound(g)
    ensures var o := Opening(g, input);
            && IdsOk(o) && HitsLeft(o) == HitsLeft(g) && Win !in o.frame
            && g.wave <= o.wave && o.limits == g.limits
  {
    hide InitializePlayers, ActAll, RemoveAll, SpawnHostiles, Peaceful, HitsLeft, Sound, IdsOk, OwnersOk;
    BeginSound(g);
    var b := Begin(g);
    var g1 := InitializePlayers(b, input.players);
    var g2 := ProcessActions(g1);
    var g3 := CheckDisconnected(g2, input.clients);
    InitializePlayersStep(b, b, input.players);
    ProcessActionsStep(b, g1);
    Sounds(b, b, g1, {});
    Sounds(b, g1, g2, {Player});
    SoundParts(b);
    SoundParts(g2);
    InitializePlayersPeaceful(b, input.players);
    PeacefulHits(b, g1);
    ActAllPeaceful(g1, g1.actions);
    PeacefulHits(g1, ActAll(g1, g1.actions));
    RemoveAllPeaceful(g2, Gone(g2.previous, input.clients));
    PeacefulHits(g2, RemoveAll(g2, Gone(g2.previous, input.clients)));
    BookHits(g, b);
    BookHits(ActAll(g1, g1.actions), g2);
    BookHits(if |input.clients| >= |g2.previous| then g2 else RemoveAll(g2, Gone(g2.previous, input.clients)), g3);
    SpawnHostilesHits(g3, input.place);
  }

  lemma SoundParts(g: Game)
    requires Sound(g)
    ensures IdsOk(g) && OwnersOk(g)
  {
  }

  lemma BookHits(a: Game, b: Game)
    requires b == a.(frame := b.frame, actions := b.actions, previous := b.previous)
    ensures HitsLeft(b) == HitsLeft(a) && (IdsOk(a) ==> IdsOk(b))
  {
  }

  lemma MiddleHits(g: Game, input: Input)
    requires Sound(g)
    ensures var q := Middle(g, input);
            && IdsOk(q) && Win !in q.frame && g.wave <= q.wave && q.limits == g.limits
            && HitsLeft(q) == HitsLeft(g) - (if Struck(Opening(g, input), BULLET_ENEMY) then 1 else 0)
  {
    hide Opening, Collide, Fly, Peaceful, HitsLeft, IdsOk, Struck;
    OpeningHits(g, input);
    var o := Opening(g, input);
    var c := Collide(o, BULLET_ENEMY);
    var f := Fly(c, Bullet);
    var e := MoveEnemies(f, input.enemyTick, input.enemyShoots);
    var p := Collide(e, SHOT_PLAYER);
    CollideHits(o, BULLET_ENEMY);
    FlyPeaceful(c, Bullet);
    PeacefulHits(c, f);
    EnemyTurnsPeaceful(f, input.enemyShoots, f.nextId);
    PeacefulHits(f, EnemyTurns(f, input.enemyShoots, f.nextId));
    CollideHits(e, SHOT_PLAYER);
    FlyPeaceful(p, EnemyBullet);
    PeacefulHits(p, Fly(p, EnemyBullet));
  }

  /** The number of hits an update scores: at most one enemy and one boss. */
  function Score(g: Game, input: Input): nat {
    (if Struck(Opening(g, input), BULLET_ENEMY) then 1 else 0)
    + (if Struck(Middle(g, input), BULLET_BOSS) then 1 else 0)
  }

  /** The game is won exactly when no hit is left; a game whose waves are empty
      must also have counted them all. */
  lemma WonWhenNothingLeft(g: Game)
    requires Sound(g)
    ensures 0 <= HitsLeft(g)
    ensures Won(g) <==> HitsLeft(g) == 0 && (0 < g.limits.enemiesPerWave || g.wave == g.limits.waves)
  {
    var e, b := g.limits.enemiesPerWave, g.limits.bosses;
    var waves, bosses := g.limits.waves - g.wave, b - g.boss;
    NoThreats(g, g.nextId);
    assert 0 <= e * waves && (e > 0 && waves > 0 ==> 0 < e * waves) && (waves == 0 ==> e * waves == 0);
    assert 0 <= b * bosses && (bosses > 0 ==> 0 < b * bosses) && (bosses == 0 ==> b * bosses == 0);
    assert 3 * b * bosses == 3 * (b * bosses);
    assert Cleared(g, Enemy) && Cleared(g, Boss) <==> Alive(g) == 0 by {
      if Alive(g) == 0 {
        forall id | id in g.entities ensures g.entities[id].kind != Enemy && g.entities[id].kind != Boss {
          assert Threat(g.entities, id) == 0;
        }
      }
    }
  }

  /** Conservation: an update lowers the hits left by the hits it scores, and by
      nothing else; it announces the win exactly when the game is won. */
  lemma Conservation(g: Game, input: Input)
    requires Sound(g)
    ensures HitsLeft(Update(g, input)) == HitsLeft(g) - Score(g, input)
    ensures Win in Update(g, input).frame <==> Won(Update(g, input))
    ensures g.wave <= Update(g, input).wave && Update(g, input).limits == g.limits
  {
    hide Opening, Middle, Collide, Peaceful, HitsLeft, IdsOk, Struck, Won;
    MiddleHits(g, input);
    var q := Middle(g, input);
    var c := Collide(q, BULLET_BOSS);
    var m := MoveBoss(c, input);
    CollideHits(q, BULLET_BOSS);
    BossTurnsPeaceful(c, input, c.nextId);
    PeacefulHits(c, BossTurns(c, input, c.nextId));
    BookHits(m, CheckWin(m));
    WonBook(m, CheckWin(m));
  }

  lemma WonBook(a: Game, b: Game)
    requires b == a.(frame := b.frame)
    ensures Won(b) <==> Won(a)
  {
  }

  /** Once won, a game stays won: every later update announces the win again. */
  lemma WinIsForEver(g: Game, input: Input)
    requires Sound(g) && Won(g)
    ensures Won(Update(g, input)) && Win in Update(g, input).frame && Score(g, input) == 0
  {
    hide Update, Won, HitsLeft, Score;
    Conservation(g, input);
    UpdateStep(g, input);
    WonWhenNothingLeft(g);
    WonWhenNothingLeft(Update(g, input));
    WonCounters(g);
    WonBounds(Update(g, input));
  }

  lemma WonCounters(g: Game)
    requires Won(g)
    ensures g.wave == g.limits.waves
  {
  }

  lemma WonBounds(g: Game)
    requires Sound(g)
    ensures g.wave <= g.limits.waves
  {
  }
}

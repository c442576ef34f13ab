/** The enemies' patrol: one clock shared by all enemies turns the heading after
    every 13 moves, whoever makes them. With several enemies each of them makes
    only every n-th move of the shared patrol, which decides where it ends up. */
module Patrol {
  import opened Text
  import opened Protocol
  import opened World
  import opened Rules
  import opened Steps
  import opened Updates
  import opened LateJoin
  import opened Replication
  import opened Shots
  import opened Players

  /** The patrol clock after `k` moves of single enemies. */
  ghost predicate Clock(g: Game, k: nat) {
    g.direction == Heading(k) && g.distance == STRIDE * (k % 13)
  }

  /** The heading of the move number `k`. */
  function Heading(k: nat): (h: nat)
    ensures h < 4
  {
    (k / 13) % 4
  }

  lemma HeadingNext(k: nat)
    ensures Heading(k + 1) == if k % 13 == 12 then (Heading(k) + 1) % 4 else Heading(k)
    ensures (k + 1) % 13 == if k % 13 == 12 then 0 else k % 13 + 1
  {
    if k % 13 == 12 {
      assert (k + 1) / 13 == k / 13 + 1;
    } else {
      assert (k + 1) / 13 == k / 13;
    }
  }

  lemma ClockAdvances(g: Game, k: nat)
    requires Clock(g, k)
    ensures Clock(Advance(g), k + 1)
  {
    hide Heading;
    HeadingNext(k);
  }

  function March(e: Entity, heading: nat): Entity { Moved(e, HeadingMove(heading).0, HeadingMove(heading).1) }

  /** The enemy of rank `r` makes the move number `k + r` of a round that began at move `k`. */
  function Marched(es: map<int, Entity>, id: nat, k: nat): Entity
    requires id in es
  {
    March(es[id], Heading(k + Count(es, Enemy, id)))
  }

  /** Where an enemy is once those below `n` have had their turns. */
  ghost predicate InRound(a: Game, b: Game, n: nat, k: nat, id: nat) {
    id in a.entities && a.entities[id].kind == Enemy ==>
      id in b.entities && b.entities[id] == if id < n then Marched(a.entities, id, k) else a.entities[id]
  }

  ghost predicate RoundSoFar(a: Game, b: Game, n: nat, k: nat) {
    && Clock(b, k + Count(a.entities, Enemy, n))
    && forall id: nat :: InRound(a, b, n, k, id)
  }

  /** One more enemy has had its turn. */
  lemma InRoundNext(a: Game, before: Game, after: Game, n: nat, k: nat, id: nat)
    requires InRound(a, before, n, k, id) && InRound(a, before, n, k, n)
    requires n in a.entities && a.entities[n].kind == Enemy && n in before.entities
    requires OneMarched(before, after, n, k + Count(a.entities, Enemy, n))
    ensures InRound(a, after, n + 1, k, id)
  {
    hide Clock, March, Heading, Count;
  }

  lemma InRoundSkip(a: Game, b: Game, n: nat, k: nat, id: nat)
    requires InRound(a, b, n, k, id) && !(n in a.entities && a.entities[n].kind == Enemy)
    ensures InRound(a, b, n + 1, k, id)
  {
    hide Marched;
  }

  /** One round of turns. */
  lemma {:induction false} EnemyTurnsMarch(g: Game, rolls: int -> bool, n: nat, k: nat)
    requires IdsOk(g) && Clock(g, k)
    ensures RoundSoFar(g, EnemyTurns(g, rolls, n), n, k)
  {
    hide EnemyTurn, Clock, OneMarched, InRound;
    if n == 0 {
      forall id: nat ensures InRound(g, g, 0, k, id) {
        InRoundStart(g, k, id);
      }
    } else {
      var before := EnemyTurns(g, rolls, n - 1);
      var after := EnemyTurns(g, rolls, n);
      EnemyTurnsMarch(g, rolls, n - 1, k);
      assert InRound(g, before, n - 1, k, n - 1);
      if n - 1 in g.entities && g.entities[n - 1].kind == Enemy {
        EnemyTurnsWalked(g, rolls, n - 1);
        OneTurn(before, n - 1, rolls(n - 1), k + Count(g.entities, Enemy, n - 1));
        OneMarchedClock(before, after, n - 1, k + Count(g.entities, Enemy, n - 1));
        forall id: nat ensures InRound(g, after, n, k, id) {
          InRoundNext(g, before, after, n - 1, k, id);
        }
      } else {
        forall id: nat ensures InRound(g, after, n, k, id) {
          InRoundSkip(g, before, n - 1, k, id);
        }
      }
    }
  }

  lemma InRoundStart(g: Game, k: nat, id: nat)
    ensures InRound(g, g, 0, k, id)
  {
  }

  lemma OneMarchedClock(a: Game, b: Game, id: int, j: nat)
    requires id in a.entities && OneMarched(a, b, id, j)
    ensures Clock(b, j + 1)
  {
  }

  /** The enemy `id` has made the move number `j`, nobody else any. */
  ghost predicate OneMarched(a: Game, b: Game, id: int, j: nat)
    requires id in a.entities
  {
    && Clock(b, j + 1)
    && forall i :: i in a.entities ==>
         i in b.entities && b.entities[i] == if i == id then March(a.entities[i], Heading(j)) else a.entities[i]
  }

  lemma OneTurn(g: Game, id: int, roll: bool, j: nat)
    requires id in g.entities && Clock(g, j)
    ensures OneMarched(g, EnemyTurn(g, id, roll), id, j)
  {
    hide EnemyBullets, Heading;
    ClockAdvances(Walk(g, id, g.direction), j);
  }

  // ----- The sum of an enemy's moves -----

  /** The number of the move an enemy makes in round `t`, its first being number
      `j`, among `n` enemies. */
  function Index(j: nat, n: nat, t: nat): nat {
    if t == 0 then j else Index(j, n, t - 1) + n
  }

  /** Its displacement after `rounds` rounds. */
  function Offset(j: nat, n: nat, rounds: nat): (int, int) {
    if rounds == 0 then (0, 0)
    else
      var (x, y) := Offset(j, n, rounds - 1);
      var (dx, dy) := HeadingMove(Heading(Index(j, n, rounds - 1)));
      (x + dx, y + dy)
  }

  lemma {:induction false} IndexSum(j: nat, n: nat, t: nat, c: nat)
    ensures Index(j, n, t + c) == Index(Index(j, n, t), n, c)
  {
    if c > 0 { IndexSum(j, n, t, c - 1); }
  }

  lemma {:induction false} IndexProduct(j: nat, n: nat, c: nat)
    ensures Index(j, n, c) == j + c * n
  {
    if c > 0 {
      IndexProduct(j, n, c - 1);
      assert (c - 1) * n + n == c * n;
    }
  }

  lemma IndexAfter13(j: nat, n: nat, t: nat)
    ensures Index(j, n, t + 13) == Index(j, n, t) + 13 * n
  {
    hide Index;
    IndexSum(j, n, t, 13);
    IndexProduct(Index(j, n, t), n, 13);
  }

  lemma HeadingTurns(i: nat, n: nat)
    ensures Heading(i + 13 * n) == (Heading(i) + n) % 4
  {
    assert (i + 13 * n) / 13 == i / 13 + n;
  }

  /** After 13 rounds the heading has turned by the number of enemies. */
  lemma HeadingAfter13(j: nat, n: nat, t: nat)
    ensures Heading(Index(j, n, t + 13)) == (Heading(Index(j, n, t)) + n) % 4
  {
    hide Heading, Index;
    IndexAfter13(j, n, t);
    HeadingTurns(Index(j, n, t), n);
  }

  /** Round `t + d` undoes round `t`. */
  ghost predicate Opposed(j: nat, n: nat, d: nat, t: nat) {
    Heading(Index(j, n, t + d)) == (Heading(Index(j, n, t)) + 2) % 4
  }

  lemma OpposedMoves(j: nat, n: nat, d: nat, t: nat)
    requires Opposed(j, n, d, t)
    ensures var (x, y) := HeadingMove(Heading(Index(j, n, t)));
            HeadingMove(Heading(Index(j, n, t + d))) == (-x, -y)
  {
    hide Heading, Index;
  }

  /** When every round is undone `d` rounds later, `m` rounds from `d` on cancel the first `m`. */
  lemma {:induction false} Cancelled(j: nat, n: nat, d: nat, m: nat)
    requires forall t: nat :: Opposed(j, n, d, t)
    ensures Offset(j, n, d + m).0 == Offset(j, n, d).0 - Offset(j, n, m).0
    ensures Offset(j, n, d + m).1 == Offset(j, n, d).1 - Offset(j, n, m).1
  {
    hide Heading, Index, HeadingMove, Opposed;
    if m > 0 {
      Cancelled(j, n, d, m - 1);
      OpposedMoves(j, n, d, m - 1);
    }
  }

  /** When the heading repeats after 13 rounds, so does the displacement. */
  lemma {:induction false} Repeated(j: nat, n: nat, m: nat)
    requires n % 4 == 0
    ensures Offset(j, n, 13 + m).0 == Offset(j, n, 13).0 + Offset(j, n, m).0
    ensures Offset(j, n, 13 + m).1 == Offset(j, n, 13).1 + Offset(j, n, m).1
  {
    hide Heading, Index, HeadingMove;
    if m > 0 {
      Repeated(j, n, m - 1);
      HeadingAfter13(j, n, m - 1);
    }
  }

  function Mod4(n: nat): nat { n % 4 }

  lemma AddFours(a: nat, q: nat)
    ensures (a + 4 * q) % 4 == a % 4
  {
  }

  lemma Mod4Plus(h: nat, n: nat)
    ensures Mod4(h + n) == Mod4(h + Mod4(n))
  {
    Mod4Splits(n);
    AddFours(h + Mod4(n), n / 4);
  }

  lemma Mod4Parity(n: nat)
    ensures n % 2 == 1 <==> Mod4(n) == 1 || Mod4(n) == 3
    ensures Mod4(n) < 4
  {
    hide Mod4;
    Mod4Splits(n);
    EvenPlus(2 * (n / 4), Mod4(n));
    SmallParity(Mod4(n));
  }

  lemma Mod4Splits(n: nat)
    ensures n == 2 * (2 * (n / 4)) + Mod4(n) && Mod4(n) < 4
  {
  }

  lemma EvenPlus(a: nat, m: nat)
    ensures (2 * a + m) % 2 == m % 2
  {
  }

  lemma SmallParity(m: nat)
    requires m < 4
    ensures m % 2 == 1 <==> m == 1 || m == 3
  {
  }

  lemma TurnedSmall(h: nat, m: nat)
    requires h < 4 && m < 4
    ensures m == 1 || m == 3 ==> Mod4(Mod4(h + m) + m) == Mod4(h + 2)
    ensures m == 2 ==> Mod4(h + m) == Mod4(h + 2)
  {
  }

  /** Turning twice by an odd number, or once by twice an odd number, is an about-turn. */
  lemma TurnedTwice(h: nat, n: nat)
    requires h < 4
    ensures n % 2 == 1 ==> Mod4(Mod4(h + n) + n) == Mod4(h + 2)
    ensures Mod4(n) == 2 ==> Mod4(h + n) == Mod4(h + 2)
  {
    hide Mod4;
    Mod4Plus(h, n);
    Mod4Plus(Mod4(h + n), n);
    Mod4Parity(n);
    TurnedSmall(h, Mod4(n));
  }

  lemma Turned(h: nat, n: nat)
    requires h < 4
    ensures n % 2 == 1 ==> ((h + n) % 4 + n) % 4 == (h + 2) % 4
    ensures n % 4 == 2 ==> (h + n) % 4 == (h + 2) % 4
  {
    TurnedTwice(h, n);
    assert Mod4(Mod4(h + n) + n) == ((h + n) % 4 + n) % 4 && Mod4(h + 2) == (h + 2) % 4;
  }

  lemma OddOrEven(j: nat, n: nat)
    ensures n % 2 == 1 ==> forall t: nat :: Opposed(j, n, 26, t)
    ensures n % 4 == 2 ==> forall t: nat :: Opposed(j, n, 13, t)
  {
    hide Heading, Index;
    forall t: nat
      ensures n % 2 == 1 ==> Opposed(j, n, 26, t)
      ensures n % 4 == 2 ==> Opposed(j, n, 13, t)
    {
      HeadingAfter13(j, n, t);
      HeadingAfter13(j, n, t + 13);
      Turned(Heading(Index(j, n, t)), n);
    }
  }

  lemma OneStride(heading: nat)
    requires heading < 4
    ensures var s := HeadingMove(heading).0 + HeadingMove(heading).1; s == STRIDE || s == -STRIDE
  {
  }

  lemma ParityFlips(q: int, r: int)
    requires q % 2 == r % 2
    ensures (q + 1) % 2 == (q - 1) % 2 == (r + 1) % 2
  {
  }

  /** An odd number of strides never adds up to nothing. */
  lemma {:induction false} StridesParity(j: nat, n: nat, rounds: nat) returns (p: int)
    ensures Offset(j, n, rounds).0 + Offset(j, n, rounds).1 == STRIDE * p && p % 2 == rounds % 2
  {
    hide Heading, Index, HeadingMove;
    if rounds == 0 {
      p := 0;
    } else {
      var q := StridesParity(j, n, rounds - 1);
      var heading := Heading(Index(j, n, rounds - 1));
      OneStride(heading);
      ParityFlips(q, rounds - 1);
      p := if HeadingMove(heading).0 + HeadingMove(heading).1 > 0 then q + 1 else q - 1;
    }
  }

  /** With an odd number of enemies, every round is undone 26 rounds later. */
  lemma UndoneAfter26(j: nat, n: nat, t: nat)
    requires n % 2 == 1
    ensures var (x, y) := HeadingMove(Heading(Index(j, n, t)));
            HeadingMove(Heading(Index(j, n, t + 26))) == (-x, -y)
  {
    hide Heading, Index, HeadingMove, Opposed;
    OddOrEven(j, n);
    OpposedMoves(j, n, 26, t);
  }

  lemma DriftedAfter52(j: nat, n: nat)
    requires n % 4 == 0
    ensures Offset(j, n, 52) != (0, 0)
  {
    hide Offset, Heading, Index;
    Repeated(j, n, 13);
    Repeated(j, n, 26);
    Repeated(j, n, 39);
    var p := StridesParity(j, n, 13);
    assert Offset(j, n, 52).0 + Offset(j, n, 52).1 == 4 * (STRIDE * p);
  }

  lemma BackAfter52(j: nat, n: nat)
    requires n % 4 != 0
    ensures Offset(j, n, 52) == (0, 0)
  {
    hide Offset, Opposed, Heading, Index;
    OddOrEven(j, n);
    if n % 2 == 1 {
      Cancelled(j, n, 26, 26);
    } else {
      Cancelled(j, n, 13, 13);
      Cancelled(j, n, 13, 26);
      Cancelled(j, n, 13, 39);
    }
  }

  /** The patrol brings an enemy back after 52 rounds exactly when the number of
      enemies is not a multiple of four. */
  lemma PatrolReturns(j: nat, n: nat)
    ensures Offset(j, n, 52) == (0, 0) <==> n % 4 != 0
  {
    hide Offset;
    if n % 4 == 0 {
      DriftedAfter52(j, n);
    } else {
      BackAfter52(j, n);
    }
  }

  /** With a multiple of four the enemies drift off without bound: each 13 rounds
      add the same displacement, which is not nothing. */
  lemma PatrolDrifts(j: nat, n: nat, m: nat)
    requires n % 4 == 0
    ensures Offset(j, n, 13 + m) == (Offset(j, n, 13).0 + Offset(j, n, m).0, Offset(j, n, 13).1 + Offset(j, n, m).1)
    ensures Offset(j, n, 13) != (0, 0)
  {
    hide Offset;
    Repeated(j, n, m);
    var p := StridesParity(j, n, 13);
  }

  lemma {:induction false} IndexOfOne(k: nat)
    ensures Index(0, 1, k) == k
  {
    if k > 0 { IndexOfOne(k - 1); }
  }

  /** A single enemy walks a square with a side of 26: where it is after `k` moves. */
  lemma {:induction false} SquareWalk(k: nat)
    ensures var m := STRIDE * (k % 13);
            Offset(0, 1, k) == if Heading(k) == 0 then (0, -m)
                               else if Heading(k) == 1 then (-m, -26 * MILLION)
                               else if Heading(k) == 2 then (-26 * MILLION, m - 26 * MILLION)
                               else (m - 26 * MILLION, 0)
  {
    hide Heading, Offset;
    SquareStart();
    if k > 0 {
      SquareWalk(k - 1);
      SquareStep(k - 1);
    }
  }

  lemma SquareStart()
    ensures Offset(0, 1, 0) == (0, 0) && Heading(0) == 0
  {
  }

  lemma SquareStep(k: nat)
    ensures Offset(0, 1, k + 1)
            == (Offset(0, 1, k).0 + HeadingMove(Heading(k)).0, Offset(0, 1, k).1 + HeadingMove(Heading(k)).1)
    ensures Heading(k + 1) == if k % 13 == 12 then (Heading(k) + 1) % 4 else Heading(k)
    ensures (k + 1) % 13 == if k % 13 == 12 then 0 else k % 13 + 1
  {
    hide Heading;
    IndexOfOne(k);
    HeadingNext(k);
  }

  // ----- The patrol along a run -----

  ghost predicate SameClock(a: Game, b: Game) { b.direction == a.direction && b.distance == a.distance }

  lemma {:induction false} InitializePlayersClock(g: Game, players: int)
    ensures SameClock(g, InitializePlayers(g, players))
    decreases players - g.spawned
  {
    if g.spawned < players { InitializePlayersClock(SpawnPlayer(g), players); }
  }

  lemma {:induction false} ActAllClock(g: Game, actions: seq<Action>)
    ensures SameClock(g, ActAll(g, actions))
  {
    if actions != [] { ActAllClock(g, actions[..|actions| - 1]); }
  }

  lemma {:induction false} RemoveAllClock(g: Game, clients: seq<int>)
    ensures SameClock(g, RemoveAll(g, clients))
  {
    if clients != [] { RemoveAllClock(g, clients[..|clients| - 1]); }
  }

  lemma {:induction false} SpawnManyClock(g: Game, kind: Kind, n: nat, place: int -> (int, int))
    ensures SameClock(g, SpawnMany(g, kind, n, place))
  {
    if n > 0 { SpawnManyClock(g, kind, n - 1, place); }
  }

  lemma CollideClock(g: Game, r: Reach)
    ensures SameClock(g, Collide(g, r))
  {
    hide FirstHit;
  }

  lemma {:induction false} BossTurnsClock(g: Game, input: Input, n: nat)
    ensures SameClock(g, BossTurns(g, input, n))
  {
    hide EnemyBullets;
    if n > 0 { BossTurnsClock(g, input, n - 1); }
  }

  /** Only the enemies' own turns move the patrol clock. */
  lemma OthersKeepClock(g: Game, input: Input)
    ensures SameClock(g, BeforeEnemies(g, input))
    ensures SameClock(MoveEnemies(BeforeEnemies(g, input), input.enemyTick, input.enemyShoots), Update(g, input))
  {
    hide InitializePlayers, ActAll, RemoveAll, SpawnMany, Collide, EnemyTurns, BossTurns;
    var g1 := InitializePlayers(Begin(g), input.players);
    var g2 := ProcessActions(g1);
    var g3 := CheckDisconnected(g2, input.clients);
    InitializePlayersClock(Begin(g), input.players);
    ActAllClock(g1, g1.actions);
    RemoveAllClock(g2, Gone(g2.previous, input.clients));
    SpawnManyClock(g3, Enemy, g3.limits.enemiesPerWave, input.place);
    SpawnManyClock(g3, Boss, g3.limits.bosses, input.place);
    CollideClock(Opening(g, input), BULLET_ENEMY);
    var e := MoveEnemies(BeforeEnemies(g, input), input.enemyTick, input.enemyShoots);
    CollideClock(e, SHOT_PLAYER);
    var c := Collide(Middle(g, input), BULLET_BOSS);
    CollideClock(Middle(g, input), BULLET_BOSS);
    BossTurnsClock(c, input, c.nextId);
  }

  /** The identifiers of the live enemies. */
  function Enemies(g: Game): set<int> { set id | id in g.entities && g.entities[id].kind == Enemy }

  lemma {:induction false} SameEnemiesSameCount(a: Game, b: Game, n: nat)
    requires Enemies(a) == Enemies(b)
    ensures Count(a.entities, Enemy, n) == Count(b.entities, Enemy, n)
  {
    if n > 0 {
      SameEnemiesSameCount(a, b, n - 1);
      assert n - 1 in Enemies(a) <==> n - 1 in Enemies(b);
    }
  }

  /** The stages around the enemies' turns, as far as enemies are concerned. */
  lemma AroundEnemies(g: Game, input: Input)
    requires Sound(g)
    ensures var f, u := BeforeEnemies(g, input), Update(g, input);
            var e := MoveEnemies(f, input.enemyTick, input.enemyShoots);
            && IdsOk(g) && IdsOk(f) && g.nextId <= f.nextId
            && Survives(Begin(g), f, {Player, Boss, Bullet}) && Survives(e, u, {Boss, EnemyBullet})
            && OnlyShots(f, u)
  {
    hide Step, Opening, Collide, Fly, MoveEnemies, Update, Middle, Sound, Since, Survives, OnlyShots;
    LaterOnlyShots(g, input);
    BeginSound(g);
    var b, c := Begin(g), Collide(Opening(g, input), BULLET_ENEMY);
    var f := BeforeEnemies(g, input);
    var e := MoveEnemies(f, input.enemyTick, input.enemyShoots);
    var p, q, u := BeforeShotsFly(g, input), Middle(g, input), Update(g, input);
    BeforeBulletsFlyStep(g, input);
    FlyStep(b, c, Bullet);
    Compose(b, b, c, f, {Player, Boss}, {Bullet});
    assert {Player, Boss} + {Bullet} == {Player, Boss, Bullet};
    Sounds(b, b, f, {Player, Boss, Bullet});
    MoveEnemiesStep(b, f, input.enemyTick, input.enemyShoots);
    Sounds(b, f, e, {Enemy});
    CollideStep(b, e, SHOT_PLAYER);
    BeforeShotsFlyStep(g, input);
    FlyStep(b, p, EnemyBullet);
    MiddleStep(g, input);
    ClosingStep(g, input);
    Compose(b, e, p, q, {Boss}, {EnemyBullet});
    Compose(b, e, q, u, {Boss} + {EnemyBullet}, {Boss});
    assert {Boss} + {EnemyBullet} + {Boss} == {Boss, EnemyBullet};
    Sounds(b, e, u, {Boss, EnemyBullet});
    SurvivesIds(b, f, {Player, Boss, Bullet});
    SoundIds(g);
  }


  lemma FewerEnemies(a: Game, b: Game)
    requires Fewer(Enemy, a, b)
    ensures Enemies(b) <= Enemies(a) && IdsOk(b)
  {
    forall id | id in Enemies(b) ensures id in Enemies(a) {
      assert id in b.entities && b.entities[id].kind == Enemy;
    }
  }

  lemma ShotsAreNoEnemies(a: Game, b: Game)
    requires OnlyShots(a, b)
    ensures Enemies(b) <= Enemies(a)
  {
    forall id | id in Enemies(b) ensures id in Enemies(a) {
      assert id in b.entities && b.entities[id].kind == Enemy;
    }
  }

  /** Players, actions and disconnections bring no enemies. */
  lemma CheckedNoNewEnemies(g: Game, input: Input)
    requires Sound(g)
    ensures Enemies(Checked(g, input)) <= Enemies(g) && IdsOk(Checked(g, input))
  {
    hide InitializePlayers, ActAll, RemoveAll, Fewer;
    SoundIds(g);
    var b, g1 := Begin(g), Joined(g, input);
    InitializePlayersFewer(Enemy, b, input.players);
    FewerEnemies(b, g1);
    ActAllFewer(Enemy, g1, g1.actions);
    FewerEnemies(g1, ActAll(g1, g1.actions));
    var g2 := ProcessActions(g1);
    RemoveAllFewer(Enemy, g2, Gone(g2.previous, input.clients));
    FewerEnemies(g2, RemoveAll(g2, Gone(g2.previous, input.clients)));
  }

  /** A wave only comes when no enemy is left. */
  lemma NoWave(g: Game, input: Input, id: int)
    requires Sound(g) && id in Enemies(g) && id in Update(g, input).entities
    ensures Enemies(Opening(g, input)) == Enemies(Checked(g, input)) && IdsOk(Opening(g, input))
  {
    hide Checked, Update, Step, Since, Sound, IdsOk, Survives, OnlyShots, Opening, BeforeEnemies;
    CheckedStep(g, input);
    Sounds(Begin(g), Checked(g, input), Update(g, input), {Bullet, Enemy, Boss, EnemyBullet});
    AroundEnemies(g, input);
    EnemyIsKnown(g, id);
    CheckedIds(g, input);
    OpeningIs(g, input);
    SurvivesAs(Checked(g, input), Update(g, input), {Bullet, Enemy, Boss, EnemyBullet}, id);
    CheckedNoNewEnemies(g, input);
  }

  lemma CheckedIds(g: Game, input: Input)
    requires Sound(g)
    ensures forall i :: i in Checked(g, input).entities && i < g.nextId ==>
              i in g.entities && Checked(g, input).entities[i].kind == g.entities[i].kind
    ensures g.nextId <= Checked(g, input).nextId
  {
    hide Checked, Joined, Update, Step, Since, ProcessActions;
    CheckedStep(g, input);
  }

  /** While an enemy lives on, no update brings new enemies. */
  lemma NoNewEnemies(g: Game, input: Input, id: int)
    requires Sound(g) && id in Enemies(g) && id in Update(g, input).entities
    ensures Enemies(Update(g, input)) <= Enemies(BeforeEnemies(g, input)) <= Enemies(g)
  {
    hide Update, Opening, Checked, Collide, Fly, Fewer;
    NoWave(g, input, id);
    CheckedNoNewEnemies(g, input);
    AroundEnemies(g, input);
    var o := Opening(g, input);
    CollideFewer(Enemy, o, BULLET_ENEMY);
    FewerEnemies(o, Collide(o, BULLET_ENEMY));
    FlyFewer(Enemy, Collide(o, BULLET_ENEMY), Bullet);
    FewerEnemies(Collide(o, BULLET_ENEMY), BeforeEnemies(g, input));
    ShotsAreNoEnemies(BeforeEnemies(g, input), Update(g, input));
  }

  lemma EnemyIsKnown(g: Game, id: int)
    requires IdsOk(g) && id in Enemies(g)
    ensures id < g.nextId
  {
  }

  lemma EnemySurvives(a: Game, b: Game, movers: set<Kind>, id: int)
    requires Survives(a, b, movers) && Enemy !in movers && id in Enemies(a) && id in Enemies(b) && id < a.nextId
    ensures b.entities[id] == a.entities[id]
  {
  }

  lemma CountOfAll(g: Game, n: nat)
    requires IdsOk(g) && g.nextId <= n
    ensures Count(g.entities, Enemy, n) == Count(g.entities, Enemy, g.nextId)
  {
    CountBeyond(g.entities, Enemy, g.nextId, n);
  }

  lemma SameMarch(xs: map<int, Entity>, ys: map<int, Entity>, id: nat, k: nat)
    requires id in xs && id in ys && xs[id] == ys[id] && Count(xs, Enemy, id) == Count(ys, Enemy, id)
    ensures Marched(xs, id, k) == Marched(ys, id, k)
  {
  }

  /** A whole round of enemies' turns, for one enemy. */
  lemma WholeRound(g: Game, rolls: int -> bool, k: nat, id: nat)
    requires IdsOk(g) && Clock(g, k) && id in Enemies(g)
    ensures var e := EnemyTurns(g, rolls, g.nextId);
            && g.nextId <= e.nextId && id in Enemies(e) && e.entities[id] == Marched(g.entities, id, k)
            && Clock(e, k + Count(g.entities, Enemy, g.nextId))
  {
    hide EnemyTurns, Count, Heading;
    EnemyTurnsMarch(g, rolls, g.nextId, k);
    EnemyTurnsWalked(g, rolls, g.nextId);
    assert InRound(g, EnemyTurns(g, rolls, g.nextId), g.nextId, k, id);
  }

  /** One update over the same live enemies: each makes its move of the round, or
      none when the clock has not fired. */
  lemma TurnPatrol(g: Game, input: Input, k: nat, id: nat)
    requires Sound(g) && Clock(g, k) && id in Enemies(g) && Enemies(Update(g, input)) == Enemies(g)
    ensures Update(g, input).entities[id] == if input.enemyTick then Marched(g.entities, id, k) else g.entities[id]
    ensures Clock(Update(g, input), if input.enemyTick then k + Count(g.entities, Enemy, g.nextId) else k)
  {
    hide Update, BeforeEnemies, EnemyTurns, Count, Heading, Since, Sound, IdsOk, OnlyShots, InRound;
    hide Survives, Marched;
    var f, u := BeforeEnemies(g, input), Update(g, input);
    assert id in Enemies(u);
    AroundEnemies(g, input);
    NoNewEnemies(g, input, id);
    OthersKeepClock(g, input);
    assert Enemies(f) == Enemies(g);
    EnemyIsKnown(g, id);
    EnemyIsKnown(f, id);
    EnemySurvives(Begin(g), f, {Player, Boss, Bullet}, id);
    SameEnemiesSameCount(f, g, id);
    SameEnemiesSameCount(f, g, f.nextId);
    CountOfAll(g, f.nextId);
    WholeRound(f, input.enemyShoots, k, id);
    EnemySurvives(MoveEnemies(f, input.enemyTick, input.enemyShoots), u, {Boss, EnemyBullet}, id);
    SameMarch(f.entities, g.entities, id, k);
  }

  /** The number of rounds the enemies make in a run. */
  function Rounds(turns: seq<Turn>): nat {
    if turns == [] then 0
    else Rounds(turns[..|turns| - 1]) + if turns[|turns| - 1].input.enemyTick then 1 else 0
  }

  lemma {:induction false} IndexShift(j: nat, r: nat, n: nat, t: nat)
    ensures Index(j + r, n, t) == Index(j, n, t) + r
  {
    if t > 0 { IndexShift(j, r, n, t - 1); }
  }

  /** Along a run that ends with the enemies it began with, the enemies were the
      same after every turn. */
  lemma {:induction false} EnemiesShrink(s: Sender, turns: seq<Turn>, id: int)
    requires ServerOk(s) && id in Enemies(s.game) && id in RunServer(s, turns).game.entities
    ensures Enemies(RunServer(s, turns).game) <= Enemies(s.game)
  {
    hide Next, ServerOk, Updated;
    if turns != [] {
      var front, t := turns[..|turns| - 1], turns[|turns| - 1];
      var before := RunServer(s, front);
      RunKeepsServer(s, front);
      NextGame(before, t);
      ServerIds(s);
      TurnSurvivor(before, t, id);
      RunSurvivor(s, front, id);
      EnemiesShrink(s, front, id);
      TurnNoNewEnemies(before, t, id);
    }
  }

  lemma TurnNoNewEnemies(s: Sender, t: Turn, id: int)
    requires ServerOk(s) && id in Enemies(s.game) && id in Updated(s, t).entities
    ensures Enemies(Updated(s, t)) <= Enemies(s.game)
  {
    hide Update, BeforeEnemies;
    TurnStep(s, t);
    AddAllKeeps(s.game, t.arrivals);
    var a := AddAll(s.game, t.arrivals);
    assert Enemies(a) == Enemies(s.game);
    NoNewEnemies(a, t.input, id);
  }

  lemma TurnPatrols(s: Sender, t: Turn, k: nat, id: nat)
    requires ServerOk(s) && Clock(s.game, k) && id in Enemies(s.game) && Enemies(Updated(s, t)) == Enemies(s.game)
    ensures Updated(s, t).entities[id]
            == if t.input.enemyTick then Marched(s.game.entities, id, k) else s.game.entities[id]
    ensures Clock(Updated(s, t), if t.input.enemyTick then k + Count(s.game.entities, Enemy, s.game.nextId) else k)
  {
    hide Update, Count, Heading, Since, IdsOk, Marched;
    TurnStep(s, t);
    AddAllKeeps(s.game, t.arrivals);
    var a := AddAll(s.game, t.arrivals);
    assert Enemies(a) == Enemies(s.game);
    TurnPatrol(a, t.input, k, id);
  }

  // ----- The clock in every reachable state -----

  /** The moves of single enemies in an update. */
  function MovesIn(g: Game, input: Input): nat {
    var f := BeforeEnemies(g, input);
    if input.enemyTick then Count(f.entities, Enemy, f.nextId) else 0
  }

  /** The moves of single enemies in a run. */
  function Moves(s: Sender, turns: seq<Turn>): nat {
    if turns == [] then 0
    else
      var front, t := turns[..|turns| - 1], turns[|turns| - 1];
      Moves(s, front) + MovesIn(AddAll(RunServer(s, front).game, t.arrivals), t.input)
  }

  lemma UpdateClock(g: Game, input: Input, k: nat)
    requires Sound(g) && Clock(g, k)
    ensures Clock(Update(g, input), k + MovesIn(g, input))
  {
    hide Update, BeforeEnemies, EnemyTurns, Count, Heading, Sound, Since, Survives, OnlyShots, IdsOk, InRound;
    var f := BeforeEnemies(g, input);
    AroundEnemies(g, input);
    OthersKeepClock(g, input);
    EnemyTurnsMarch(f, input.enemyShoots, f.nextId, k);
  }

  lemma TurnClock(s: Sender, t: Turn, k: nat)
    requires ServerOk(s) && Clock(s.game, k)
    ensures Clock(Updated(s, t), k + MovesIn(AddAll(s.game, t.arrivals), t.input))
  {
    hide Update, MovesIn, Heading;
    TurnStep(s, t);
    AddAllKeeps(s.game, t.arrivals);
    UpdateClock(AddAll(s.game, t.arrivals), t.input, k);
  }

  lemma {:induction false} RunClock(s: Sender, turns: seq<Turn>, k: nat)
    requires ServerOk(s) && Clock(s.game, k)
    ensures Clock(RunServer(s, turns).game, k + Moves(s, turns))
  {
    hide Next, ServerOk, Updated, Clock, MovesIn;
    if turns != [] {
      var front, t := turns[..|turns| - 1], turns[|turns| - 1];
      RunKeepsServer(s, front);
      RunClock(s, front, k);
      TurnClock(RunServer(s, front), t, k + Moves(s, front));
      NextGame(RunServer(s, front), t);
    }
  }

  /** Along every run of the game, whoever spawns and dies, the direction is the
      number of moves of single enemies so far divided by 13, modulo 4, and the
      distance is 2 times that number modulo 13. */
  lemma ClockLaw(limits: Limits, connected: nat, turns: seq<Turn>)
    ensures var s := InitialServer(limits, connected);
            var g, k := RunServer(s, turns).game, Moves(s, turns);
            g.direction == (k / 13) % 4 && g.distance == STRIDE * (k % 13)
  {
    hide RunServer, Moves;
    RunClock(InitialServer(limits, connected), turns, 0);
  }

  lemma ReachableClock(limits: Limits, connected: nat, past: seq<Turn>)
    ensures var s := InitialServer(limits, connected);
            ServerOk(RunServer(s, past)) && Clock(RunServer(s, past).game, Moves(s, past))
  {
    hide RunServer, Moves;
    RunClock(InitialServer(limits, connected), past, 0);
    RunKeepsServer(InitialServer(limits, connected), past);
  }

  // ----- The patrol law -----

  /** From a state whose clock is known, the enemy of rank `r` among `n` has made
      every `n`-th move of the shared patrol from the `r`-th on, once for each round. */
  lemma {:induction false} PatrolFrom(s: Sender, turns: seq<Turn>, k: nat, id: nat)
    requires ServerOk(s) && Clock(s.game, k) && id in Enemies(s.game)
    requires Enemies(RunServer(s, turns).game) == Enemies(s.game)
    ensures var n, r := Count(s.game.entities, Enemy, s.game.nextId), Count(s.game.entities, Enemy, id);
            && Clock(RunServer(s, turns).game, Index(k, n, Rounds(turns)))
            && RunServer(s, turns).game.entities[id]
               == Moved(s.game.entities[id], Offset(k + r, n, Rounds(turns)).0, Offset(k + r, n, Rounds(turns)).1)
  {
    hide Next, ServerOk, Updated, Heading, Count, Clock, Marched, Offset, Moved;
    if turns == [] {
      NoRounds(s.game.entities[id], k + Count(s.game.entities, Enemy, id),
               Count(s.game.entities, Enemy, s.game.nextId));
    } else {
      var front, t := turns[..|turns| - 1], turns[|turns| - 1];
      var before := RunServer(s, front);
      var n, r := Count(s.game.entities, Enemy, s.game.nextId), Count(s.game.entities, Enemy, id);
      RunKeepsServer(s, front);
      NextGame(before, t);
      EnemiesStay(s, front, t, id);
      assert id in Enemies(before.game);
      PatrolFrom(s, front, k, id);
      TurnPatrols(before, t, Index(k, n, Rounds(front)), id);
      SameEnemiesSameCount(before.game, s.game, id);
      SameEnemiesSameCount(before.game, s.game, before.game.nextId);
      CountBeyondRun(s, before);
      MoreRounds(before.game.entities, id, s.game.entities[id], k, r, n, Rounds(front));
    }
  }

  lemma NoRounds(e: Entity, j: nat, n: nat)
    ensures Moved(e, Offset(j, n, 0).0, Offset(j, n, 0).1) == e
  {
  }

  lemma MoreRounds(es: map<int, Entity>, id: nat, e: Entity, k: nat, r: nat, n: nat, rounds: nat)
    requires id in es && es[id] == Moved(e, Offset(k + r, n, rounds).0, Offset(k + r, n, rounds).1)
    requires Count(es, Enemy, id) == r
    ensures Marched(es, id, Index(k, n, rounds))
            == Moved(e, Offset(k + r, n, rounds + 1).0, Offset(k + r, n, rounds + 1).1)
  {
    hide Heading, HeadingMove, Index;
    IndexShift(k, r, n, rounds);
  }

  lemma CountBeyondRun(a: Sender, b: Sender)
    requires ServerOk(a) && a.game.nextId <= b.game.nextId
    ensures Count(a.game.entities, Enemy, b.game.nextId) == Count(a.game.entities, Enemy, a.game.nextId)
  {
    CountBeyond(a.game.entities, Enemy, a.game.nextId, b.game.nextId);
  }

  lemma EnemiesStay(s: Sender, front: seq<Turn>, t: Turn, id: int)
    requires ServerOk(s) && id in Enemies(s.game)
    requires Enemies(Updated(RunServer(s, front), t)) == Enemies(s.game)
    ensures Enemies(RunServer(s, front).game) == Enemies(s.game)
  {
    hide Next, ServerOk, Updated;
    var before := RunServer(s, front);
    RunKeepsServer(s, front);
    ServerIds(s);
    forall i | i in Enemies(s.game) ensures i in Enemies(before.game) {
      assert i in Enemies(Updated(before, t));
      TurnSurvivor(before, t, i);
      RunSurvivor(s, front, i);
    }
    assert id in Enemies(before.game);
    EnemiesShrink(s, front, id);
  }

  /** The patrol law. Along every run of the game that keeps its live enemies from
      some state on, the enemy of rank `r` among `n` has since made every `n`-th move
      of the shared patrol from the `r`-th on, once for each round, and nothing else. */
  lemma PatrolLaw(limits: Limits, connected: nat, past: seq<Turn>, turns: seq<Turn>, id: nat)
    requires var s := RunServer(InitialServer(limits, connected), past);
             id in Enemies(s.game) && Enemies(RunServer(s, turns).game) == Enemies(s.game)
    ensures var s := RunServer(InitialServer(limits, connected), past);
            var k := Moves(InitialServer(limits, connected), past);
            var n, r := Count(s.game.entities, Enemy, s.game.nextId), Count(s.game.entities, Enemy, id);
            RunServer(s, turns).game.entities[id]
            == Moved(s.game.entities[id], Offset(k + r, n, Rounds(turns)).0, Offset(k + r, n, Rounds(turns)).1)
  {
    hide RunServer, Moves, ServerOk, Rounds, Offset, Count, Heading, Clock;
    ReachableClock(limits, connected, past);
    var start := InitialServer(limits, connected);
    PatrolFrom(RunServer(start, past), turns, Moves(start, past), id);
  }

  /** After 52 rounds over the same enemies, from any state of the game on, each of
      them is back in its place exactly when their number is not a multiple of four. */
  lemma BackInPlace(limits: Limits, connected: nat, past: seq<Turn>, turns: seq<Turn>, id: nat)
    requires var s := RunServer(InitialServer(limits, connected), past);
             id in Enemies(s.game) && Enemies(RunServer(s, turns).game) == Enemies(s.game) && Rounds(turns) == 52
    ensures var s := RunServer(InitialServer(limits, connected), past);
            RunServer(s, turns).game.entities[id] == s.game.entities[id]
            <==> Count(s.game.entities, Enemy, s.game.nextId) % 4 != 0
  {
    hide RunServer, Moves, Rounds, Offset, Count, Heading;
    var s, k := RunServer(InitialServer(limits, connected), past), Moves(InitialServer(limits, connected), past);
    PatrolLaw(limits, connected, past, turns, id);
    PatrolReturns(k + Count(s.game.entities, Enemy, id), Count(s.game.entities, Enemy, s.game.nextId));
  }
}

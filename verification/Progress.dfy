/** What the account of an update means for whole runs: every update of every run
    keeps to it, a player in reach of a shot dies, and the waves and bosses come. */
module Progress {
  import opened Protocol
  import opened World
  import opened Rules
  import opened Steps
  import opened Updates
  import opened Replication
  import opened Players
  import opened Stages
  import opened Conformance
  import Patrol

  /** In every run of the game, every update goes through the stages of the reference. */
  lemma EveryUpdate(limits: Limits, connected: nat, past: seq<Turn>, t: Turn)
    ensures var s := RunServer(InitialServer(limits, connected), past);
            var a, k := AddAll(s.game, t.arrivals), Patrol.Moves(InitialServer(limits, connected), past);
            var c := CourseOf(a, t.input);
            Account(c, t.input, k) && c.begun == a.(frame := []) && c.done == Updated(s, t)
  {
    hide RunServer, ServerOk, Leftover, Patrol.Moves, CourseOf, Account, Update;
    var start := InitialServer(limits, connected);
    var s := RunServer(start, past);
    StartLeftover(limits, connected);
    QueueAlongRun(start, past);
    RunKeepsServer(start, past);
    Patrol.ClockLaw(limits, connected, past);
    AddAllKeeps(s.game, t.arrivals);
    TurnStep(s, t);
    QueueWaits(s.game, t.arrivals);
    UpdateIsAccounted(AddAll(s.game, t.arrivals), t.input, Patrol.Moves(start, past));
  }

  lemma QueueWaits(g: Game, arrivals: seq<(int, int)>)
    requires Leftover(g.actions)
    ensures Waiting(AddAll(g, arrivals).actions)
  {
    AddAllActions(g, arrivals);
  }

  // ----- The fate of a player in reach of a shot -----

  lemma FirstIsUnique(g: Game, i: int, j: int, k: int, l: int, one: Kind, other: Kind, dx: int, dy: int)
    requires FirstTouching(g, i, j, one, other, dx, dy) && FirstTouching(g, k, l, one, other, dx, dy)
    ensures i == k && j == l
  {
  }

  lemma FirstOnesAreStruck(g: Game, r: Reach, i: int, j: int)
    requires IdsOk(g) && FirstTouching(g, i, j, r.a, r.b, r.dx, r.dy)
    ensures StruckAre(g, Collide(g, r), i, j)
  {
    hide StruckAre, Collide, IdsOk;
    CollideLawfully(g, r);
    assert Touching(g, i, j, r.a, r.b, r.dx, r.dy);
    var k, l :| FirstTouching(g, k, l, r.a, r.b, r.dx, r.dy) && StruckAre(g, Collide(g, r), k, l);
    FirstIsUnique(g, i, j, k, l, r.a, r.b, r.dx, r.dy);
  }

  lemma StruckPlayer(a: Game, b: Game, shot: int, player: int)
    requires IdsOk(a) && Touching(a, shot, player, EnemyBullet, Player, 30_000_000, 50_000_000)
    requires StruckAre(a, b, shot, player)
    ensures player !in b.entities && shot !in b.entities && player < a.nextId && shot < a.nextId && b.nextId == a.nextId
    ensures Delete(player) in b.frame && Delete(shot) in b.frame
  {
    assert b.frame == a.frame + [Delete(shot), Important] + [Delete(player), Important];
    assert b.frame[|a.frame|] == Delete(shot) && b.frame[|a.frame| + 2] == Delete(player);
  }

  /** What is told after the shots have struck comes behind what was told before. */
  lemma LaterFrames(g: Game, input: Input)
    requires Sound(g)
    ensures CourseOf(g, input).shot.frame <= Update(g, input).frame
  {
    hide Sound, Since, Survives, Touching, StruckAre, Opening, Collide, Fly, MoveEnemies, MoveBoss, Update, OfKind;
    hide Checked, Joined, ProcessActions, BuriedAt, ShotFrom, Pushed, Shooters, Room;
    LastStages(g, input);
    var c := CourseOf(g, input);
    StruckFrame(c.landed, c.wounded);
  }

  lemma StruckFrame(a: Game, b: Game)
    requires FirstPairIsStruck(a, b, Bullet, Boss, 50_000_000, 50_000_000)
    ensures a.frame <= b.frame
  {
    hide Touching, Struck;
  }

  /** A player in reach of an enemy bullet dies of it, if the two are the first such
      pair of the update, and the update's frame says so. */
  lemma ShotPlayerDies(g: Game, input: Input, shot: int, player: int)
    requires Sound(g)
    requires FirstTouching(CourseOf(g, input).marched, shot, player, EnemyBullet, Player, 30_000_000, 50_000_000)
    ensures var u := Update(g, input);
            && player !in u.entities && shot !in u.entities
            && Delete(player) in u.frame && Delete(shot) in u.frame
  {
    hide Opening, Collide, Fly, MoveEnemies, Update, Sound, Since, IdsOk, Survives, Step, Touching, StruckAre;
    hide Checked, Joined, ProcessActions, MoveBoss;
    var c, b := CourseOf(g, input), Begin(g);
    StagesSound(g, input);
    FirstOnesAreStruck(c.marched, SHOT_PLAYER, shot, player);
    assert Touching(c.marched, shot, player, EnemyBullet, Player, 30_000_000, 50_000_000);
    StruckPlayer(c.marched, c.shot, shot, player);
    LaterFrames(g, input);
    BeforeShotsFlyStep(g, input);
    MiddleStep(g, input);
    FlyStep(b, c.shot, EnemyBullet);
    ClosingStep(g, input);
    Compose(b, c.shot, c.landed, c.done, {EnemyBullet}, {Boss});
    Sounds(b, c.shot, c.done, {EnemyBullet} + {Boss});
    if player in c.done.entities { SurvivesAs(c.shot, c.done, {EnemyBullet} + {Boss}, player); }
    if shot in c.done.entities { SurvivesAs(c.shot, c.done, {EnemyBullet} + {Boss}, shot); }
  }

  // ----- Waves and bosses -----

  /** The counters and the limits. */
  predicate SameCounters(a: Game, b: Game) { b.wave == a.wave && b.boss == a.boss && b.limits == a.limits }

  lemma CountersBefore(g: Game, input: Input)
    requires Sound(g)
    ensures SameCounters(g, CourseOf(g, input).checked)
  {
    hide InitializePlayers, ActAll, CheckDisconnected, Update, Opening, Sound, Since, Survives, Step;
    hide OldAndNew, Adds, JoinsAs, ShotAs, Buries, HasLeft;
    CheckedStep(g, input);
    var joined := Joined(g, input);
    PlayersJoinLawfully(Begin(g), input.players);
    ActionsActLawfully(joined);
    LeaversGoLawfully(ProcessActions(joined), input.clients);
  }

  lemma CountersAfter(g: Game, input: Input)
    requires Sound(g)
    ensures SameCounters(CourseOf(g, input).invaded, Update(g, input))
  {
    hide Opening, Collide, Fly, EnemyTurns, BossTurns, Update, Sound, IdsOk;
    StagesSound(g, input);
    var c := CourseOf(g, input);
    CollideCounters(c.invaded, BULLET_ENEMY);
    FlyCounters(c.struck, Bullet);
    EnemyCounters(c.flown, input.enemyShoots);
    CollideCounters(c.marched, SHOT_PLAYER);
    FlyCounters(c.shot, EnemyBullet);
    CollideCounters(c.landed, BULLET_BOSS);
    BossCounters(c.wounded, input);
    UpdateIs(g, input);
  }

  lemma UpdateIs(g: Game, input: Input)
    ensures Update(g, input) == CheckWin(CourseOf(g, input).moved)
  {
    hide Opening, Collide, Fly, EnemyTurns, BossTurns;
  }

  lemma CollideCounters(g: Game, r: Reach)
    ensures SameCounters(g, Collide(g, r))
  {
    hide FirstHit;
  }

  lemma FlyCounters(g: Game, kind: Kind)
    ensures SameCounters(g, Fly(g, kind))
  {
  }

  lemma EnemyCounters(g: Game, rolls: int -> bool)
    requires IdsOk(g)
    ensures SameCounters(g, EnemyTurns(g, rolls, g.nextId))
  {
    hide EnemyTurns, VolleySoFar, OfKind;
    EnemiesShoot(g, rolls, g.nextId);
  }

  lemma BossCounters(g: Game, input: Input)
    requires IdsOk(g)
    ensures SameCounters(g, BossTurns(g, input, g.nextId))
  {
    hide BossTurns, VolleySoFar, OfKind, BossesSoFar;
    BossesTurn(g, input, g.nextId);
  }

  /** Whether the spawn stage of an update meets no live enemy. */
  predicate MeetsNobody(g: Game, input: Input) { OfKind(CourseOf(g, input).checked, Enemy) == {} }

  /** An update whose spawn stage meets no live enemy brings the next wave or, after
      the last, the next bosses; no other update brings any. */
  lemma SpawnProgress(g: Game, input: Input)
    requires Sound(g)
    ensures var u := Update(g, input);
            && u.limits == g.limits
            && (if MeetsNobody(g, input) && g.wave < g.limits.waves then u.wave == g.wave + 1 && u.boss == g.boss
                else if MeetsNobody(g, input) && g.boss < g.limits.bosses then u.wave == g.wave && u.boss == g.boss + 1
                else u.wave == g.wave && u.boss == g.boss)
  {
    hide CheckDisconnected, ProcessActions, Joined, Update, Sound, OfKind, Arrive, SpawnHostiles, Since, Survives, Step;
    CountersBefore(g, input);
    CountersAfter(g, input);
    CheckedStep(g, input);
    SoundIds(Checked(g, input));
    OpeningIs(g, input);
    ArriveLimits(g, input);
    HostilesComeLawfully(Checked(g, input), input.place);
  }

  lemma ArriveLimits(g: Game, input: Input)
    ensures var c := CourseOf(g, input); c.invaded.limits == c.checked.limits
  {
    hide Checked, ProcessActions, Joined, Update, SpawnMany, MoveEnemies, MoveBoss, Collide, Fly, Opening, Step;
    var g3 := Checked(g, input);
    OpeningIs(g, input);
    SpawnManyStep(g3, g3, Enemy, g3.limits.enemiesPerWave, input.place);
    SpawnManyStep(g3, g3, Boss, g3.limits.bosses, input.place);
  }

  /** The number of updates of a run whose spawn stage met no live enemy. */
  function Clearings(s: Sender, turns: seq<Turn>): nat {
    if turns == [] then 0
    else
      var front, t := turns[..|turns| - 1], turns[|turns| - 1];
      Clearings(s, front) + if MeetsNobody(AddAll(RunServer(s, front).game, t.arrivals), t.input) then 1 else 0
  }

  /** Along every run the counters are those of a game that brings a wave each time
      the enemies are cleared, as long as there are waves, and then the bosses. */
  lemma {:induction false} RunProgress(limits: Limits, connected: nat, turns: seq<Turn>)
    ensures var s := InitialServer(limits, connected);
            var g, n := RunServer(s, turns).game, Clearings(s, turns);
            && g.limits == limits && g.wave == Min(limits.waves, n)
            && g.boss == Min(limits.bosses, n - Min(limits.waves, n))
  {
    hide Update, MeetsNobody, ServerOk, Updated;
    var s := InitialServer(limits, connected);
    StartLeftover(limits, connected);
    if turns != [] {
      var front, t := turns[..|turns| - 1], turns[|turns| - 1];
      var before := RunServer(s, front);
      RunProgress(limits, connected, front);
      RunKeepsServer(s, front);
      TurnProgress(before, t);
      NextGame(before, t);
    }
  }

  lemma TurnProgress(s: Sender, t: Turn)
    requires ServerOk(s)
    ensures var g, u, clear := s.game, Updated(s, t), MeetsNobody(AddAll(s.game, t.arrivals), t.input);
            && u.limits == g.limits
            && (if clear && g.wave < g.limits.waves then u.wave == g.wave + 1 && u.boss == g.boss
                else if clear && g.boss < g.limits.bosses then u.wave == g.wave && u.boss == g.boss + 1
                else u.wave == g.wave && u.boss == g.boss)
  {
    hide Update, MeetsNobody, Sound, Since, Survives;
    TurnStep(s, t);
    AddAllKeeps(s.game, t.arrivals);
    SpawnProgress(AddAll(s.game, t.arrivals), t.input);
  }
}

/** The game state as a value, the primitive changes the game makes to it, and
    the rule of every frame: which events tell which changes. */
module World {
  import opened Text
  import opened Protocol

  datatype Entity = Entity(kind: Kind, x: int, y: int, lives: int)

  /** The wave, boss and bullet parameters; the game fixes them at 5, 1, 1 and 5. */
  datatype Limits = Limits(enemiesPerWave: nat, waves: nat, bosses: nat, maxEnemyBullets: nat)

  datatype Action = Action(player: int, code: int, processed: bool)

  /** The fields of the game state; `frame` holds the events of the current frame. */
  datatype Game = Game(
    limits: Limits,
    entities: map<int, Entity>,
    nextId: nat,
    frame: seq<Event>,
    wave: nat,
    boss: nat,
    spawned: nat,
    owner: map<int, int>,
    actions: seq<Action>,
    previous: seq<int>,
    direction: nat,
    distance: int)

  function InitialGame(limits: Limits): Game {
    Game(limits, map[], 0, [], 0, 0, 0, map[], [], [], 0, 0)
  }

  function NewEntity(kind: Kind, x: int, y: int): Entity {
    Entity(kind, x, y, if kind == Boss then 3 else 1)
  }

  function Emit(g: Game, e: Event): Game { g.(frame := g.frame + [e]) }

  /** `spawnEntity`. A ball is unsupported: it is stored, but neither announced
      nor counted. */
  function Spawn(g: Game, kind: Kind, x: int, y: int): Game {
    var px, py := if kind == Bullet then x + 50 * MILLION else x, if kind == Bullet then y + 25 * MILLION else y;
    var stored := g.(entities := if g.nextId in g.entities then g.entities
                                 else g.entities[g.nextId := NewEntity(kind, px, py)]);
    if kind == Ball then stored
    else
      stored.(owner := if kind == Player then g.owner[g.spawned := g.nextId] else g.owner,
              frame := g.frame + [Create(kind, g.nextId, px, py), Important],
              nextId := g.nextId + 1)
  }

  /** `killEntity`. */
  function Kill(g: Game, id: int): Game {
    if id in g.entities then
      g.(entities := g.entities - {id}, frame := g.frame + [Delete(id), Important])
    else g
  }

  /** An entity changed in place: moved, or short of a life. */
  function Touch(g: Game, id: int, e: Entity): Game
    requires id in g.entities
  {
    g.(entities := g.entities[id := e])
  }

  // ----- The story a frame tells -----

  function Created(es: seq<Event>): set<int> {
    if es == [] then {}
    else
      var e := es[|es| - 1];
      Created(es[..|es| - 1]) + if e.Create? then {e.id} else {}
  }

  function Deleted(es: seq<Event>): set<int> {
    if es == [] then {}
    else
      var e := es[|es| - 1];
      Deleted(es[..|es| - 1]) + if e.Delete? then {e.id} else {}
  }

  function Creations(es: seq<Event>): nat {
    if es == [] then 0 else Creations(es[..|es| - 1]) + if es[|es| - 1].Create? then 1 else 0
  }

  /** Creations take the identifiers from `first` on, one after the other, and
      a deletion only names an identifier already given out. */
  predicate Story(es: seq<Event>, first: nat) {
    es == [] ||
    (var front := es[..|es| - 1];
     Story(front, first) &&
     match es[|es| - 1]
     case Create(kind, id, _, _) => id == first + Creations(front) && kind != Ball
     case Delete(id) => 0 <= id < first + Creations(front)
     case Change(_, _, _) => false
     case _ => true)
  }

  predicate Announces(e: Event) { e.Create? || e.Delete? }

  /** Every creation or deletion is followed at once by one mark, and no mark stands elsewhere. */
  ghost predicate Marked(es: seq<Event>) {
    && (es != [] ==> es[0] != Important)
    && forall i :: 0 <= i < |es| ==> MarkedAt(es, i)
  }

  predicate MarkedAt(es: seq<Event>, i: nat)
    requires i < |es|
  {
    Announces(es[i]) <==> i + 1 < |es| && es[i + 1] == Important
  }

  ghost predicate KindsMatch(es: seq<Event>, entities: map<int, Entity>) {
    forall i :: 0 <= i < |es| && es[i].Create? && es[i].id in entities ==> entities[es[i].id].kind == es[i].kind
  }

  /** What the frame says since it was begun in state `g0` is what happened to the entities. */
  ghost predicate Since(g0: Game, g: Game) {
    && g.limits == g0.limits
    && Story(g.frame, g0.nextId)
    && g.nextId == g0.nextId + Creations(g.frame)
    && g.entities.Keys == (g0.entities.Keys + Created(g.frame)) - Deleted(g.frame)
    && Deleted(g.frame) <= g0.entities.Keys + Created(g.frame)
    && KindsMatch(g.frame, g.entities)
    && Marked(g.frame)
  }

  lemma Push(es: seq<Event>, e: Event)
    ensures Created(es + [e]) == Created(es) + if e.Create? then {e.id} else {}
    ensures Deleted(es + [e]) == Deleted(es) + if e.Delete? then {e.id} else {}
    ensures Creations(es + [e]) == Creations(es) + if e.Create? then 1 else 0
    ensures forall first: nat :: Story(es + [e], first) <==>
                Story(es, first) &&
                match e
                case Create(kind, id, _, _) => id == first + Creations(es) && kind != Ball
                case Delete(id) => 0 <= id < first + Creations(es)
                case Change(_, _, _) => false
                case _ => true
  {
    assert (es + [e])[..|es + [e]| - 1] == es;
  }

  lemma PushMarked(es: seq<Event>, e: Event)
    requires Marked(es)
    ensures Announces(e) ==> Marked(es + [e, Important])
    ensures !Announces(e) && e != Important ==> Marked(es + [e])
  {
    assert es != [] ==> MarkedAt(es, |es| - 1);
    var fs, hs := es + [e, Important], es + [e];
    assert forall i :: 0 <= i < |es| ==> fs[i] == es[i] && hs[i] == es[i] && MarkedAt(es, i);
  }

  /** The identifiers of a story: created ones are new, deleted ones given out. */
  lemma {:induction false} StoryRanges(es: seq<Event>, first: nat)
    requires Story(es, first)
    ensures forall id :: id in Created(es) ==> first <= id < first + Creations(es)
    ensures forall id :: id in Deleted(es) ==> 0 <= id < first + Creations(es)
    ensures forall i :: 0 <= i < |es| && es[i].Create? ==> es[i].id in Created(es)
  {
    if es != [] { StoryRanges(es[..|es| - 1], first); }
  }

  // ----- Invariants -----

  /** Every stored entity has a known identifier, a supported kind and a life left. */
  ghost predicate IdsOk(g: Game) {
    forall id :: id in g.entities ==> 0 <= id < g.nextId && EntityOk(g.entities[id])
  }

  predicate EntityOk(e: Entity) {
    e.kind != Ball && if e.kind == Boss then 1 <= e.lives <= 3 else e.lives == 1
  }

  /** Ownership: a client key was given to a player spawned before, to each
      client its own entity, and that entity is a player while it lives. */
  ghost predicate OwnersOk(g: Game) {
    && (forall c :: c in g.owner ==> 0 <= c < g.spawned && 0 <= g.owner[c] < g.nextId)
    && (forall c :: c in g.owner && g.owner[c] in g.entities ==> g.entities[g.owner[c]].kind == Player)
    && (forall c, d :: c in g.owner && d in g.owner && g.owner[c] == g.owner[d] ==> c == d)
  }

  ghost predicate Sound(g: Game) {
    && IdsOk(g) && OwnersOk(g) && g.wave <= g.limits.waves && g.boss <= g.limits.bosses
  }

  lemma SoundIds(g: Game)
    requires Sound(g)
    ensures IdsOk(g)
  {
  }

  /** Entities of `a` that are still in `b` keep their kind, and outside the
      moving kinds they are unchanged. */
  ghost predicate Survives(a: Game, b: Game, movers: set<Kind>) {
    && a.nextId <= b.nextId
    && forall id :: id in b.entities && id < a.nextId ==>
         && id in a.entities && b.entities[id].kind == a.entities[id].kind
         && (a.entities[id].kind !in movers ==> b.entities[id] == a.entities[id])
  }

  lemma SurvivesAs(a: Game, b: Game, movers: set<Kind>, id: int)
    requires Survives(a, b, movers) && id in b.entities && id < a.nextId
    ensures id in a.entities && b.entities[id].kind == a.entities[id].kind
    ensures a.entities[id].kind !in movers ==> b.entities[id] == a.entities[id]
  {
  }

  lemma SurvivesIds(a: Game, b: Game, movers: set<Kind>)
    requires Survives(a, b, movers)
    ensures a.nextId <= b.nextId
  {
  }

  /** What every stage of an update keeps. */
  ghost predicate Step(g0: Game, a: Game, b: Game, movers: set<Kind>) {
    (Sound(a) && Since(g0, a)) ==> Sound(b) && Since(g0, b) && Survives(a, b, movers)
  }

  lemma StepTrans(g0: Game, a: Game, b: Game, c: Game, movers: set<Kind>)
    requires Step(g0, a, b, movers) && Step(g0, b, c, movers)
    ensures Step(g0, a, c, movers)
  {
  }

  lemma StepMore(g0: Game, a: Game, b: Game, movers: set<Kind>, more: set<Kind>)
    requires Step(g0, a, b, movers) && movers <= more
    ensures Step(g0, a, b, more)
  {
  }

  /** The frame after a creation or a deletion and its mark. */
  lemma PushAnnounced(es: seq<Event>, e: Event)
    requires Announces(e)
    ensures var fs := es + [e, Important];
            && Created(fs) == Created(es) + (if e.Create? then {e.id} else {})
            && Deleted(fs) == Deleted(es) + (if e.Delete? then {e.id} else {})
            && Creations(fs) == Creations(es) + (if e.Create? then 1 else 0)
            && (Marked(es) ==> Marked(fs))
    ensures forall first: nat :: Story(es + [e, Important], first) <==> Story(es + [e], first)
  {
    assert es + [e, Important] == es + [e] + [Important];
    Push(es, e);
    Push(es + [e], Important);
    if Marked(es) { PushMarked(es, e); }
  }

  lemma SpawnStep(g0: Game, g: Game, kind: Kind, x: int, y: int)
    requires kind != Ball && kind != Player
    ensures Step(g0, g, Spawn(g, kind, x, y), {})
  {
    if Sound(g) && Since(g0, g) {
      SpawnSince(g0, g, kind, x, y);
    }
  }

  lemma SpawnSince(g0: Game, g: Game, kind: Kind, x: int, y: int)
    requires IdsOk(g) && Since(g0, g) && kind != Ball
    ensures Since(g0, Spawn(g, kind, x, y))
  {
    hide Created, Deleted, Creations, Marked;
    var b := Spawn(g, kind, x, y);
    var e := b.frame[|g.frame|];
    assert b.frame == g.frame + [e, Important];
    PushAnnounced(g.frame, e);
    Push(g.frame, e);
    StoryRanges(g.frame, g0.nextId);
    assert g.nextId !in Created(g.frame) && g.nextId !in Deleted(g.frame);
  }

  /** A spawn is told as it happened exactly when the kind is supported: a ball is
      stored under an identifier that no frame announces and the next spawn reuses. */
  lemma SpawnIsTold(g0: Game, g: Game, kind: Kind, x: int, y: int)
    requires IdsOk(g) && Since(g0, g)
    ensures Since(g0, Spawn(g, kind, x, y)) <==> kind != Ball
  {
    if kind != Ball {
      SpawnSince(g0, g, kind, x, y);
    } else {
      assert g.nextId in Spawn(g, Ball, x, y).entities.Keys;
      StoryRanges(g.frame, g0.nextId);
    }
  }

  lemma KillStep(g0: Game, g: Game, id: int)
    ensures Step(g0, g, Kill(g, id), {})
  {
    hide Created, Deleted, Creations, Marked, Story, EntityOk;
    if Sound(g) && Since(g0, g) && id in g.entities {
      PushAnnounced(g.frame, Delete(id));
      Push(g.frame, Delete(id));
    }
  }

  lemma TouchStep(g0: Game, g: Game, id: int, e: Entity)
    requires id in g.entities && e.kind == g.entities[id].kind && EntityOk(e)
    ensures Step(g0, g, Touch(g, id, e), {e.kind})
  {
  }

  lemma EmitStep(g0: Game, g: Game, e: Event)
    requires e == Background || e == Win
    ensures Step(g0, g, Emit(g, e), {})
  {
    if Sound(g) && Since(g0, g) {
      Push(g.frame, e);
      PushMarked(g.frame, e);
    }
  }

  /** Announcing the background and spawning the next player, as one change. */
  function SpawnPlayer(g: Game): Game {
    var s := Spawn(Emit(g, Background), Player, 100 * MILLION * (g.spawned + 1), 100 * MILLION);
    s.(spawned := g.spawned + 1)
  }

  lemma SpawnPlayerStep(g0: Game, g: Game)
    ensures Step(g0, g, SpawnPlayer(g), {})
  {
    var a, b := Emit(g, Background), SpawnPlayer(g);
    if Sound(g) && Since(g0, g) {
      EmitStep(g0, g, Background);
      SpawnSince(g0, a, Player, 100 * MILLION * (g.spawned + 1), 100 * MILLION);
      assert Since(g0, b) by { hide Story, Created, Deleted, Creations, Marked, KindsMatch; }
      PlayerOwnersOk(g);
    }
  }

  lemma PlayerOwnersOk(g: Game)
    requires Sound(g)
    ensures Sound(SpawnPlayer(g))
  {
  }
}

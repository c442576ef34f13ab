/** A game entity: a record with a registry of its own, in which its components live. */
module GeneralEntities {
  import opened Options
  import opened Text
  import opened Protocol
  import opened SparseArrays
  import opened Registries
  import World

  const MOVING: Component := Velocity(0, 0)
  const SHOT: Component := Projectile(MILLION)
  const SOLID: Component := Collidable(true)

  function Box(side: int): Component { Drawable(side * MILLION, side * MILLION) }

  /** The components of a new entity, in the order in which they are added. */
  function Kit(kind: Kind, x: int, y: int): seq<Component> {
    [Component.Position(x, y)] +
    match kind
    case Player => [MOVING, Box(50), Controllable, SOLID]
    case Enemy => [Box(50), SOLID]
    case Boss => [MOVING, Box(100), SOLID]
    case Bullet => [SHOT, Box(5), SOLID]
    case EnemyBullet => [SHOT, Box(5), SOLID]
    case Ball => [SHOT, Box(5), SOLID]
  }

  const EVERY_TYPE: set<ComponentType> := {POSITION, VELOCITY, DRAWABLE, CONTROLLABLE, COLLIDABLE, PROJECTILE}

  /** All component types are registered, as the game state does when it is made. */
  predicate Ready(r: Entities) { r.arrays.Keys == EVERY_TYPE }

  function AddAll(r: Entities, e: nat, cs: seq<Component>): Entities {
    if cs == [] then r
    else
      var before := AddAll(r, e, cs[..|cs| - 1]);
      match Add(before, e, cs[|cs| - 1])
      case Some(s) => s
      case None => before
  }

  /** The last component of a type in a list. */
  function LastOf(cs: seq<Component>, t: ComponentType): Option<Component> {
    if cs == [] then None
    else if TypeOf(cs[|cs| - 1]) == t then Some(cs[|cs| - 1])
    else LastOf(cs[..|cs| - 1], t)
  }

  /** Adding components to an existing entity gives it those, and touches nobody else. */
  lemma {:induction false} AddAllIsLocal(r: Entities, e: nat, cs: seq<Component>)
    requires Clean(r) && Ready(r) && Exists(r, e)
    ensures var s := AddAll(r, e, cs);
            && Clean(s) && Ready(s) && s.next == r.next && s.dead == r.dead
            && forall t, i: nat :: ComponentOf(s, t, i)
                                   == if i == e && LastOf(cs, t).Some? then LastOf(cs, t) else ComponentOf(r, t, i)
  {
    hide Clean, Add, ComponentOf;
    if cs != [] {
      var before, c := AddAll(r, e, cs[..|cs| - 1]), cs[|cs| - 1];
      AddAllIsLocal(r, e, cs[..|cs| - 1]);
      AddWhenReady(before, e, c);
      AddIsLocal(before, e, c);
    }
  }

  lemma AddWhenReady(r: Entities, e: nat, c: Component)
    requires Ready(r) && Exists(r, e)
    ensures Add(r, e, c).Some? && Ready(Add(r, e, c).value)
  {
    assert TypeOf(c) in r.arrays.Keys;
  }

  lemma KitPosition(kind: Kind, x: int, y: int)
    ensures LastOf(Kit(kind, x, y), POSITION) == Some(Component.Position(x, y))
  {
    var cs := Kit(kind, x, y);
    assert |cs| <= 5 && cs[0] == Component.Position(x, y);
    assert forall i :: 0 < i < |cs| ==> TypeOf(cs[i]) != POSITION;
    LastIsFirst(cs);
  }

  lemma {:induction false} LastIsFirst(cs: seq<Component>)
    requires cs != [] && TypeOf(cs[0]) == POSITION && forall i :: 0 < i < |cs| ==> TypeOf(cs[i]) != POSITION
    ensures LastOf(cs, POSITION) == Some(cs[0])
  {
    if |cs| > 1 { LastIsFirst(cs[..|cs| - 1]); }
  }

  /** The components a new entity of each kind has, and which it has not. */
  lemma KitIs(kind: Kind, x: int, y: int)
    ensures var cs := Kit(kind, x, y);
            var side := if kind == Boss then 100_000_000
                        else if kind == Player || kind == Enemy then 50_000_000 else 5_000_000;
            && LastOf(cs, POSITION) == Some(Component.Position(x, y))
            && LastOf(cs, DRAWABLE) == Some(Drawable(side, side))
            && LastOf(cs, COLLIDABLE) == Some(Collidable(true))
            && LastOf(cs, VELOCITY) == (if kind == Player || kind == Boss then Some(Velocity(0, 0)) else None)
            && LastOf(cs, CONTROLLABLE) == (if kind == Player then Some(Controllable) else None)
            && LastOf(cs, PROJECTILE)
               == (if kind == Bullet || kind == EnemyBullet || kind == Ball then Some(Projectile(1_000_000)) else None)
  {
    var cs := Kit(kind, x, y);
    forall t ensures LastOf(cs, t) == LastOfFive(cs, t) {
      LastOfFew(cs, t);
    }
  }

  /** The last component of a type among at most five. */
  function LastOfFive(cs: seq<Component>, t: ComponentType): Option<Component>
    requires |cs| <= 5
  {
    if |cs| > 4 && TypeOf(cs[4]) == t then Some(cs[4])
    else if |cs| > 3 && TypeOf(cs[3]) == t then Some(cs[3])
    else if |cs| > 2 && TypeOf(cs[2]) == t then Some(cs[2])
    else if |cs| > 1 && TypeOf(cs[1]) == t then Some(cs[1])
    else if |cs| > 0 && TypeOf(cs[0]) == t then Some(cs[0])
    else None
  }

  lemma {:induction false} LastOfFew(cs: seq<Component>, t: ComponentType)
    requires |cs| <= 5
    ensures LastOf(cs, t) == LastOfFive(cs, t)
  {
    if cs != [] { LastOfFew(cs[..|cs| - 1], t); }
  }

  class GeneralEntity {
    var registry: Registry
    var entity: nat
    var kind: Kind
    var numberOfLives: int

    ghost predicate Valid()
      reads this, registry, registry.Repr()
    {
      && this !in registry.Repr() && registry.Valid()
      && Clean(registry.State()) && Ready(registry.State())
    }

    /** The entity exists and has a position, as every stored entity does. */
    ghost predicate Placed()
      reads this, registry, registry.Repr()
    {
      Valid() && HasComponent(registry.State(), entity, POSITION)
    }

    /** What the game rules see of it. */
    ghost function Value(): World.Entity
      requires Placed()
      reads this, registry, registry.Repr()
    {
      var p := ComponentOf(registry.State(), POSITION, entity).value;
      World.Entity(kind, p.x, p.y, numberOfLives)
    }

    /** A copy of a registry with one entity more. */
    static method Spawned(source: Registry) returns (r: Registry, e: nat)
      requires source.Valid() && Clean(source.State()) && Ready(source.State())
      ensures r.Valid() && fresh(r.Repr())
      ensures (r.State(), e) == Spawn(old(source.State()))
      ensures Clean(r.State()) && Ready(r.State()) && Exists(r.State(), e) && !Exists(old(source.State()), e)
      ensures forall t :: ComponentOf(r.State(), t, e) == None
    {
      hide Clean, ComponentOf, Exists, Spawn, Ready, Registry.Valid, Registry.State, Registry.Data;
      ghost var s := source.State();
      SpawnIsBlank(s);
      SpawnArrays(s);
      r := new Registry.Copy(source);
      e := r.SpawnEntity();
    }

    /** A new entity in a copy of the given registry, which stays as it is. */
    constructor (source: Registry, what: Kind, x: int, y: int)
      requires source.Valid() && Clean(source.State()) && Ready(source.State())
      ensures Placed() && fresh(registry) && fresh(registry.Repr())
      ensures Value() == World.NewEntity(what, x, y)
      ensures forall t :: ComponentOf(registry.State(), t, entity) == LastOf(Kit(what, x, y), t)
      ensures !Exists(old(source.State()), entity)
    {
      hide Clean, LastOf, Kit, AddAll, Ready, Exists, Registry.Valid;
      var r, e := Spawned(source);
      registry, entity, kind, numberOfLives := r, e, what, 1;
      new;
      assert this !in r.Repr();
      AddComponents(what, x, y);
      KitPosition(what, x, y);
      assert forall t :: ComponentOf(registry.State(), t, entity) == LastOf(Kit(what, x, y), t);
    }

    /** A copy, as a snapshot of all entities makes it: nothing is shared. */
    constructor Copy(other: GeneralEntity)
      requires other.Valid()
      ensures Valid() && fresh(registry) && fresh(registry.Repr())
      ensures registry.State() == other.registry.State() && entity == other.entity && kind == other.kind
      ensures other.Placed() ==> Placed() && Value() == other.Value()
    {
      hide Clean, Ready, ComponentOf, Exists;
      registry := new Registry.Copy(other.registry);
      entity, kind, numberOfLives := other.entity, other.kind, other.numberOfLives;
    }

    method AddComponents(what: Kind, x: int, y: int)
      requires Valid() && Exists(registry.State(), entity)
      modifies this`numberOfLives, registry.Repr()
      ensures Valid() && registry.Repr() == old(registry.Repr())
      ensures registry.State() == AddAll(old(registry.State()), entity, Kit(what, x, y))
      ensures Exists(registry.State(), entity)
      ensures forall t, i: nat :: ComponentOf(registry.State(), t, i)
                == if i == entity && LastOf(Kit(what, x, y), t).Some? then LastOf(Kit(what, x, y), t)
                   else ComponentOf(old(registry.State()), t, i)
      ensures numberOfLives == if what == Boss then 3 else old(numberOfLives)
    {
      hide Clean, Add, ComponentOf, LastOf, Kit, Ready, Registry.Valid, Registry.State, Registry.Data, Registry.Repr;
      var kit := Kit(what, x, y);
      ghost var r := registry.State();
      AddAllIsLocal(r, entity, kit);
      for i := 0 to |kit|
        invariant registry.Valid() && registry.Repr() == old(registry.Repr()) && numberOfLives == old(numberOfLives)
        invariant registry.State() == AddAll(r, entity, kit[..i])
      {
        assert kit[..i + 1][..i] == kit[..i];
        var ok := registry.AddComponent(entity, kit[i]);
      }
      assert kit[..|kit|] == kit;
      if what == Boss {
        numberOfLives := 3;
      }
    }

    /** `move`; an entity without a position is left alone. */
    method Move(dx: int, dy: int)
      requires Valid()
      modifies registry.Repr()
      ensures Valid() && registry.Repr() == old(registry.Repr())
      ensures old(Placed()) ==> Placed() && Value() == old(Value()).(x := old(Value()).x + dx, y := old(Value()).y + dy)
      ensures !old(Placed()) ==> registry.State() == old(registry.State())
    {
      hide Clean, Ready, Exists, Registry.Valid;
      var has := registry.HasComponentOf(entity, POSITION);
      if has {
        ghost var r := registry.State();
        PositionsAre(r, entity);
        var slot := registry.GetComponent(entity, POSITION);
        var p := slot.value.value;
        assert registry.State() == r by { GrownIsSame(r, entity, POSITION); }
        AddWhenReady(r, entity, Component.Position(p.x + dx, p.y + dy));
        AddIsLocal(r, entity, Component.Position(p.x + dx, p.y + dy));
        var ok := registry.AddComponent(entity, Component.Position(p.x + dx, p.y + dy));
      }
    }

    method SetNumberOfLives(lives: int)
      requires Valid()
      modifies this`numberOfLives
      ensures Valid()
      ensures old(Placed()) ==> Placed() && Value() == old(Value()).(lives := lives)
    {
      numberOfLives := lives;
    }

    /** The destructor: kills the entity unless it has been killed already. */
    method Destroy()
      requires Valid()
      modifies registry.Repr()
      ensures Valid() && !Exists(registry.State(), entity)
      ensures registry.State() == if old(Exists(registry.State(), entity)) then Kill(old(registry.State()), entity)
                                  else old(registry.State())
    {
      KillNeedsExistence(registry.State(), entity);
      if registry.EntityExists(entity) {
        registry.KillEntity(entity);
      }
    }
  }

  lemma SpawnArrays(r: Entities)
    ensures Ready(Spawn(r).0) == Ready(r)
  {
  }

  /** Looking at a slot that holds something does not grow the array. */
  lemma GrownIsSame(r: Entities, e: nat, t: ComponentType)
    requires ComponentOf(r, t, e).Some?
    ensures r.arrays[t := Grown(r.arrays[t], e + 1)] == r.arrays
  {
  }

  lemma PositionsAre(r: Entities, e: nat)
    requires Clean(r) && HasComponent(r, e, POSITION)
    ensures ComponentOf(r, POSITION, e).value.Position?
  {
    assert TypeOf(ComponentOf(r, POSITION, e).value) == POSITION;
  }
}

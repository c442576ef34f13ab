/** The entity registry: identifiers and component arrays. */
module Registries {
  import opened Options
  import opened SparseArrays

  datatype ComponentType = POSITION | VELOCITY | DRAWABLE | CONTROLLABLE | COLLIDABLE | PROJECTILE

  /** The components; sizes, speeds and positions in millionths. */
  datatype Component =
    | Position(x: int, y: int)
    | Velocity(dx: int, dy: int)
    | Drawable(width: int, height: int)
    | Controllable
    | Collidable(isCollidable: bool)
    | Projectile(speed: int)

  function TypeOf(c: Component): ComponentType {
    match c
    case Position(_, _) => POSITION
    case Velocity(_, _) => VELOCITY
    case Drawable(_, _) => DRAWABLE
    case Controllable => CONTROLLABLE
    case Collidable(_) => COLLIDABLE
    case Projectile(_) => PROJECTILE
  }

  type Arrays = map<ComponentType, seq<Option<Component>>>

  /** The state of a registry: the next identifier, the dead ones (the last killed
      is reused first), and one sparse array for each registered type. */
  datatype Entities = Entities(next: nat, dead: seq<nat>, arrays: Arrays)

  function NoEntities(): Entities { Entities(0, [], map[]) }

  predicate Exists(r: Entities, e: nat) { e < r.next && e !in r.dead }

  /** The component of an entity in an array; nothing when the type is not registered. */
  function ComponentOf(r: Entities, t: ComponentType, e: nat): Option<Component> {
    if t in r.arrays then Slot(r.arrays[t], e) else None
  }

  /** `spawn_entity`: the identifier killed last, or a new one. */
  function Spawn(r: Entities): (Entities, nat) {
    if r.dead != [] then (r.(dead := r.dead[..|r.dead| - 1]), r.dead[|r.dead| - 1])
    else (r.(next := r.next + 1), r.next)
  }

  function EraseAll(arrays: Arrays, e: nat): Arrays {
    map t | t in arrays :: Erased(arrays[t], e)
  }

  /** `kill_entity`, which asks nothing about the identifier. */
  function Kill(r: Entities, e: nat): Entities {
    r.(dead := r.dead + [e], arrays := EraseAll(r.arrays, e))
  }

  function Register(r: Entities, t: ComponentType): Entities {
    if t in r.arrays then r else r.(arrays := r.arrays[t := []])
  }

  /** `add_component`; `None` is the exception for an unknown entity or type. */
  function Add(r: Entities, e: nat, c: Component): Option<Entities> {
    if !Exists(r, e) || TypeOf(c) !in r.arrays then None
    else Some(r.(arrays := r.arrays[TypeOf(c) := Put(r.arrays[TypeOf(c)], e, Some(c))]))
  }

  /** `remove_component`; `None` is the exception for an unknown type. */
  function Remove(r: Entities, e: nat, t: ComponentType): Option<Entities> {
    if t !in r.arrays then None
    else Some(r.(arrays := r.arrays[t := Erased(r.arrays[t], e)]))
  }

  predicate HasComponent(r: Entities, e: nat, t: ComponentType) { Exists(r, e) && ComponentOf(r, t, e).Some? }

  // ----- Recycling -----

  ghost predicate Distinct(s: seq<nat>) { forall i, j :: 0 <= i < j < |s| ==> s[i] != s[j] }

  /** No dead identifier is listed twice or unknown. */
  ghost predicate DeadOk(r: Entities) { Distinct(r.dead) && forall e :: e in r.dead ==> e < r.next }

  /** Only existing entities have components, each in the array of its type. */
  ghost predicate ComponentsOk(r: Entities) {
    forall t, e: nat :: ComponentOf(r, t, e).Some? ==> Exists(r, e) && TypeOf(ComponentOf(r, t, e).value) == t
  }

  ghost predicate Clean(r: Entities) { DeadOk(r) && ComponentsOk(r) }

  lemma ErasedComponents(r: Entities, e: nat, t: ComponentType, i: nat)
    ensures ComponentOf(Kill(r, e), t, i) == if i == e then None else ComponentOf(r, t, i)
  {
    if t in r.arrays { SlotsAfter(r.arrays[t], e, None, i); }
  }

  /** A spawned entity did not exist, has no component, and disturbs no other. */
  lemma SpawnIsBlank(r: Entities)
    requires Clean(r)
    ensures var (s, e) := Spawn(r);
            && Clean(s) && !Exists(r, e) && Exists(s, e)
            && (forall t :: ComponentOf(s, t, e) == None)
            && (forall i: nat :: i != e ==> (Exists(s, i) <==> Exists(r, i)))
            && s.arrays == r.arrays
  {
    var (s, e) := Spawn(r);
    if r.dead != [] {
      assert r.dead == s.dead + [e];
      assert forall i: nat :: i in r.dead <==> i in s.dead || i == e;
      assert e !in s.dead;
    }
    assert forall t, i: nat :: ComponentOf(s, t, i) == ComponentOf(r, t, i);
    assert forall i: nat :: Exists(s, i) <==> Exists(r, i) || i == e;
  }

  /** Killing keeps the registry clean exactly when the entity exists: a second
      kill, or one of an identifier never spawned, spoils the list. */
  lemma KillNeedsExistence(r: Entities, e: nat)
    requires Clean(r)
    ensures Clean(Kill(r, e)) <==> Exists(r, e)
    ensures Exists(r, e) ==>
              !Exists(Kill(r, e), e) && forall i: nat :: i != e ==> (Exists(Kill(r, e), i) <==> Exists(r, i))
  {
    var k := Kill(r, e);
    forall t, i: nat ensures ComponentOf(k, t, i) == if i == e then None else ComponentOf(r, t, i) {
      ErasedComponents(r, e, t, i);
    }
    assert k.dead[|r.dead|] == e;
    assert forall i: nat :: i in k.dead <==> i in r.dead || i == e;
    if e in r.dead {
      var j :| 0 <= j < |r.dead| && r.dead[j] == e;
      assert k.dead[j] == k.dead[|r.dead|];
    }
    if Exists(r, e) {
      assert DeadOk(k);
      assert forall i: nat :: Exists(k, i) <==> Exists(r, i) && i != e;
    }
  }

  /** What becomes of a killed entity's identifier: the next entity gets it, blank. */
  lemma SpawnAfterKill(r: Entities, e: nat)
    ensures Spawn(Kill(r, e)) == (r.(arrays := EraseAll(r.arrays, e)), e)
  {
    assert Kill(r, e).dead[..|r.dead|] == r.dead;
  }

  /** A component goes where it belongs and nowhere else. */
  lemma AddIsLocal(r: Entities, e: nat, c: Component)
    requires Clean(r) && Add(r, e, c).Some?
    ensures var s := Add(r, e, c).value;
            && Clean(s) && s.next == r.next && s.dead == r.dead && HasComponent(s, e, TypeOf(c))
            && forall t, i: nat ::
                 ComponentOf(s, t, i) == if t == TypeOf(c) && i == e then Some(c) else ComponentOf(r, t, i)
  {
    var s := Add(r, e, c).value;
    forall t, i: nat
      ensures ComponentOf(s, t, i) == if t == TypeOf(c) && i == e then Some(c) else ComponentOf(r, t, i)
    {
      SlotsAfter(r.arrays[TypeOf(c)], e, Some(c), i);
    }
    forall t, i: nat | ComponentOf(s, t, i).Some? ensures Exists(s, i) && TypeOf(ComponentOf(s, t, i).value) == t {
      assert ComponentOf(r, t, i).Some? ==> Exists(r, i);
    }
  }

  lemma RemoveIsLocal(r: Entities, e: nat, t: ComponentType)
    requires Clean(r) && Remove(r, e, t).Some?
    ensures var s := Remove(r, e, t).value;
            && Clean(s) && s.next == r.next && s.dead == r.dead
            && forall u, i: nat :: ComponentOf(s, u, i) == if u == t && i == e then None else ComponentOf(r, u, i)
  {
    var s := Remove(r, e, t).value;
    forall u, i: nat ensures ComponentOf(s, u, i) == if u == t && i == e then None else ComponentOf(r, u, i) {
      SlotsAfter(r.arrays[t], e, None, i);
    }
    forall u, i: nat | ComponentOf(s, u, i).Some? ensures Exists(s, i) && TypeOf(ComponentOf(s, u, i).value) == u {
      assert ComponentOf(r, u, i).Some? ==> Exists(r, i);
    }
  }

  lemma RegisterIsBlank(r: Entities, t: ComponentType)
    requires Clean(r)
    ensures Clean(Register(r, t)) && t in Register(r, t).arrays
    ensures forall u, i: nat :: ComponentOf(Register(r, t), u, i) == ComponentOf(r, u, i)
  {
    var s := Register(r, t);
    assert forall u, i: nat :: ComponentOf(s, u, i) == ComponentOf(r, u, i);
    forall u, i: nat | ComponentOf(s, u, i).Some? ensures Exists(s, i) && TypeOf(ComponentOf(s, u, i).value) == u {
      assert ComponentOf(r, u, i).Some? ==> Exists(r, i);
    }
  }

  // ----- Histories -----

  datatype Op =
    | SpawnOp
    | KillOp(entity: nat)
    | RegisterOp(t: ComponentType)
    | AddOp(to: nat, c: Component)
    | RemoveOp(from: nat, t: ComponentType)

  /** One operation; a raised exception leaves the state as it was. */
  function Apply(r: Entities, op: Op): Entities {
    match op
    case SpawnOp => Spawn(r).0
    case KillOp(e) => Kill(r, e)
    case RegisterOp(t) => Register(r, t)
    case AddOp(e, c) => (match Add(r, e, c) case Some(s) => s case None => r)
    case RemoveOp(e, t) => (match Remove(r, e, t) case Some(s) => s case None => r)
  }

  function After(ops: seq<Op>): Entities {
    if ops == [] then NoEntities() else Apply(After(ops[..|ops| - 1]), ops[|ops| - 1])
  }

  /** Only existing entities are killed, as the destructor of an entity makes sure. */
  predicate Guarded(ops: seq<Op>) {
    ops == [] ||
    (Guarded(ops[..|ops| - 1])
     && (ops[|ops| - 1].KillOp? ==> Exists(After(ops[..|ops| - 1]), ops[|ops| - 1].entity)))
  }

  function Alive(r: Entities): int { r.next - |r.dead| }

  /** The largest number of entities alive at once in a history. */
  function Peak(ops: seq<Op>): int {
    var now := Alive(After(ops));
    if ops == [] then now
    else
      var before := Peak(ops[..|ops| - 1]);
      if now > before then now else before
  }

  /** In every guarded history the registry stays clean, and the identifiers ever
      made are as many as the entities that were alive at once at the peak. */
  lemma {:induction false} RecyclingIsTight(ops: seq<Op>)
    requires Guarded(ops)
    ensures Clean(After(ops)) && After(ops).next == Peak(ops)
  {
    hide Clean, Spawn, Kill, Add, Remove, Register;
    if ops == [] {
      CleanStart();
    } else {
      var r, op := After(ops[..|ops| - 1]), ops[|ops| - 1];
      RecyclingIsTight(ops[..|ops| - 1]);
      match op {
        case SpawnOp => SpawnIsBlank(r); SpawnCounts(r);
        case KillOp(e) => KillNeedsExistence(r, e); KillCounts(r, e);
        case RegisterOp(t) => RegisterIsBlank(r, t); RegisterCounts(r, t);
        case AddOp(e, c) => if Add(r, e, c).Some? { AddIsLocal(r, e, c); }
        case RemoveOp(e, t) => if Remove(r, e, t).Some? { RemoveIsLocal(r, e, t); }
      }
    }
  }

  lemma CleanStart()
    ensures Clean(NoEntities())
  {
  }

  lemma SpawnCounts(r: Entities)
    ensures var s := Spawn(r).0;
            && Alive(s) == Alive(r) + 1
            && s.next == if r.dead == [] then r.next + 1 else r.next
    ensures r.dead == [] ==> Alive(r) == r.next
    ensures r.dead != [] ==> Alive(r) < r.next
  {
  }

  lemma KillCounts(r: Entities, e: nat)
    ensures Kill(r, e).next == r.next && Alive(Kill(r, e)) == Alive(r) - 1
  {
  }

  lemma RegisterCounts(r: Entities, t: ComponentType)
    ensures Register(r, t).next == r.next && Alive(Register(r, t)) == Alive(r)
  {
  }

  // ----- The loops over the registered types -----

  /** The arrays once those of some types have lost an entity. */
  function ErasedIn(arrays: Arrays, ts: seq<ComponentType>, e: nat): Arrays {
    map t | t in arrays :: if t in ts then Erased(arrays[t], e) else arrays[t]
  }

  lemma NothingErased(arrays: Arrays, e: nat)
    ensures ErasedIn(arrays, [], e) == arrays
  {
  }

  lemma ErasedInMore(arrays: Arrays, ts: seq<ComponentType>, t: ComponentType, e: nat)
    requires t in arrays && t !in ts
    ensures ErasedIn(arrays, ts + [t], e) == ErasedIn(arrays, ts, e)[t := Erased(ErasedIn(arrays, ts, e)[t], e)]
  {
  }

  lemma ErasedInAll(arrays: Arrays, ts: seq<ComponentType>, e: nat)
    requires forall t :: t in arrays ==> t in ts
    ensures ErasedIn(arrays, ts, e) == EraseAll(arrays, e)
  {
  }

  /** The arrays of some types. */
  function Restricted(arrays: Arrays, ts: seq<ComponentType>): Arrays { map t | t in arrays && t in ts :: arrays[t] }

  lemma RestrictedMore(arrays: Arrays, ts: seq<ComponentType>, t: ComponentType)
    requires t in arrays
    ensures Restricted(arrays, ts + [t]) == Restricted(arrays, ts)[t := arrays[t]]
  {
  }

  lemma RestrictedToNone(arrays: Arrays)
    ensures Restricted(arrays, []) == map[]
  {
  }

  lemma RestrictedToAll(arrays: Arrays, ts: seq<ComponentType>)
    requires forall t :: t in arrays ==> t in ts
    ensures Restricted(arrays, ts) == arrays
  {
  }

  // ----- The object -----

  class Registry {
    var nextEntity: nat
    var deadEntities: seq<nat>
    var componentArrays: map<ComponentType, SparseArray<Component>>
    var eraseFunctions: seq<ComponentType>  // the types, in the order of registration

    /** The objects this one owns. */
    ghost function Repr(): set<object>
      reads this
    {
      {this} + set t | t in componentArrays :: componentArrays[t] as object
    }

    ghost predicate Valid()
      reads this
    {
      && (forall t, u :: (&& t in componentArrays && u in componentArrays
                          && componentArrays[t] == componentArrays[u]) ==> t == u)
      && (forall t :: t in componentArrays <==> t in eraseFunctions)
      && (forall i, j :: 0 <= i < j < |eraseFunctions| ==> eraseFunctions[i] != eraseFunctions[j])
    }

    ghost function Data(): Arrays
      reads this`componentArrays, set t | t in componentArrays :: componentArrays[t]
    {
      map t | t in componentArrays :: componentArrays[t].data
    }

    ghost function State(): Entities
      reads Repr()
    {
      Entities(nextEntity, deadEntities, Data())
    }

    constructor ()
      ensures Valid() && fresh(Repr()) && State() == NoEntities()
    {
      nextEntity, deadEntities, componentArrays, eraseFunctions := 0, [], map[], [];
    }

    /** A registry holds its arrays by value: a copy shares nothing. */
    constructor Copy(other: Registry)
      requires other.Valid()
      ensures Valid() && fresh(Repr()) && State() == old(other.State()) == other.State()
    {
      hide Registry.Data, Registry.Valid;
      nextEntity, deadEntities, componentArrays, eraseFunctions := other.nextEntity, other.deadEntities, map[], [];
      new;
      ghost var data := other.Data();
      CopyArrays(other, data);
    }

    method CopyArrays(other: Registry, ghost data: Arrays)
      requires componentArrays == map[] && eraseFunctions == []
      requires other != this && other.Valid() && data == other.Data()
      modifies this`componentArrays, this`eraseFunctions
      ensures Valid() && fresh(Repr() - {this}) && Data() == data == other.Data()
    {
      hide Registry.Data, Restricted, Registry.Valid;
      RestrictedToNone(data);
      NoData();
      NothingRegistered();
      other.KeysAreTypes();
      for i := 0 to |other.eraseFunctions|
        invariant Valid() && fresh(Repr() - {this}) && other.Valid()
        invariant eraseFunctions == other.eraseFunctions[..i] && Data() == Restricted(data, eraseFunctions)
        invariant other.Data() == data && forall t :: t in data <==> t in other.eraseFunctions
      {
        var t := other.eraseFunctions[i];
        other.TypeIsNew(i);
        RestrictedMore(data, eraseFunctions, t);
        AdoptCopy(t, other, data);
      }
      RestrictedToAll(data, eraseFunctions);
    }

    ghost method NoData()
      requires componentArrays == map[]
      ensures Data() == map[]
    {
    }

    ghost method NothingRegistered()
      requires componentArrays == map[] && eraseFunctions == []
      ensures Valid()
    {
    }

    ghost method TypeIsNew(i: nat)
      requires Valid() && i < |eraseFunctions|
      ensures eraseFunctions[i] !in eraseFunctions[..i] && eraseFunctions[i] in componentArrays
    {
    }

    /** The copy of one array. */
    method AdoptCopy(t: ComponentType, other: Registry, ghost data: Arrays)
      requires Valid() && t !in eraseFunctions && other != this && other.Valid()
      requires t in other.componentArrays && data == other.Data()
      modifies this`componentArrays, this`eraseFunctions
      ensures other.Valid()
      ensures Valid() && fresh(Repr() - old(Repr())) && eraseFunctions == old(eraseFunctions) + [t]
      ensures Data() == old(Data())[t := data[t]] && other.Data() == data
    {
      var a := new SparseArray<Component>.Copy(other.componentArrays[t]);
      componentArrays := componentArrays[t := a];
      eraseFunctions := eraseFunctions + [t];
      assert Data() == old(Data())[t := data[t]];
    }

    method SpawnEntity() returns (id: nat)
      requires Valid()
      modifies this`nextEntity, this`deadEntities
      ensures Valid() && (State(), id) == Spawn(old(State()))
    {
      if deadEntities != [] {
        id := deadEntities[|deadEntities| - 1];
        deadEntities := deadEntities[..|deadEntities| - 1];
      } else {
        id := nextEntity;
        nextEntity := nextEntity + 1;
      }
      assert Data() == old(Data());
    }

    /** One registered type's erase function. */
    method EraseIn(t: ComponentType, e: nat)
      requires Valid() && t in eraseFunctions
      modifies componentArrays[t]
      ensures Valid() && Repr() == old(Repr()) && Data() == old(Data())[t := Erased(old(Data())[t], e)]
    {
      componentArrays[t].Erase(e);
      assert Data() == old(Data())[t := Erased(old(Data())[t], e)];
    }

    method KillEntity(e: nat)
      requires Valid()
      modifies Repr()
      ensures Valid() && Repr() == old(Repr()) && State() == Kill(old(State()), e)
    {
      hide Registry.Data, EraseAll, ErasedIn, Registry.Valid;
      NothingErased(Data(), e);
      KeysAreTypes();
      for i := 0 to |eraseFunctions|
        invariant Valid() && Repr() == old(Repr()) && nextEntity == old(nextEntity) && deadEntities == old(deadEntities)
        invariant componentArrays == old(componentArrays) && eraseFunctions == old(eraseFunctions)
        invariant Data() == ErasedIn(old(Data()), eraseFunctions[..i], e)
      {
        TypeIsNew(i);
        ErasedInMore(old(Data()), eraseFunctions[..i], eraseFunctions[i], e);
        assert eraseFunctions[..i + 1] == eraseFunctions[..i] + [eraseFunctions[i]];
        EraseIn(eraseFunctions[i], e);
      }
      assert eraseFunctions[..|eraseFunctions|] == eraseFunctions;
      ErasedInAll(old(Data()), eraseFunctions, e);
      AddDead(e);
    }

    method AddDead(e: nat)
      requires Valid()
      modifies this`deadEntities
      ensures Valid() && deadEntities == old(deadEntities) + [e] && Data() == old(Data())
    {
      deadEntities := deadEntities + [e];
      assert Data() == old(Data());
    }

    ghost method KeysAreTypes()
      requires Valid()
      ensures forall t :: t in Data() <==> t in eraseFunctions
    {
    }

    method RegisterComponent(t: ComponentType)
      requires Valid()
      modifies this`componentArrays, this`eraseFunctions
      ensures Valid() && fresh(Repr() - old(Repr())) && State() == Register(old(State()), t)
    {
      if t !in componentArrays {
        var a := new SparseArray<Component>();
        componentArrays := componentArrays[t := a];
        eraseFunctions := eraseFunctions + [t];
        assert Data() == old(Data())[t := []];
      }
    }

    method AddComponent(to: nat, c: Component) returns (ok: bool)
      requires Valid()
      modifies Repr()
      ensures Valid() && Repr() == old(Repr())
      ensures match Add(old(State()), to, c)
              case Some(s) => ok && State() == s
              case None => !ok && State() == old(State())
    {
      if !EntityExists(to) || TypeOf(c) !in componentArrays {
        return false;
      }
      componentArrays[TypeOf(c)].InsertAt(to, c);
      assert Data() == old(Data())[TypeOf(c) := Put(old(Data())[TypeOf(c)], to, Some(c))];
      return true;
    }

    method EmplaceComponent(to: nat, c: Component) returns (ok: bool)
      requires Valid()
      modifies Repr()
      ensures Valid() && Repr() == old(Repr())
      ensures match Add(old(State()), to, c)
              case Some(s) => ok && State() == s
              case None => !ok && State() == old(State())
    {
      if !EntityExists(to) || TypeOf(c) !in componentArrays {
        return false;
      }
      componentArrays[TypeOf(c)].EmplaceAt(to, c);
      assert Data() == old(Data())[TypeOf(c) := Put(old(Data())[TypeOf(c)], to, Some(c))];
      return true;
    }

    method RemoveComponent(from: nat, t: ComponentType) returns (ok: bool)
      requires Valid()
      modifies Repr()
      ensures Valid() && Repr() == old(Repr())
      ensures match Remove(old(State()), from, t)
              case Some(s) => ok && State() == s
              case None => !ok && State() == old(State())
    {
      if t !in componentArrays {
        return false;
      }
      EraseIn(t, from);
      return true;
    }

    predicate EntityExists(e: nat)
      reads this
      ensures EntityExists(e) <==> Exists(Entities(nextEntity, deadEntities, map[]), e)
    {
      e < nextEntity && e !in deadEntities
    }

    /** `get_components<C>()[e]`: the slot, grown if need be; `None` is the exception
        for an unregistered type. */
    method GetComponent(e: nat, t: ComponentType) returns (r: Option<Option<Component>>)
      requires Valid()
      modifies Repr()
      ensures Valid() && Repr() == old(Repr())
      ensures r == if t in old(componentArrays) then Some(ComponentOf(old(State()), t, e)) else None
      ensures State() == if r == None then old(State())
                         else old(State()).(arrays := old(State()).arrays[t := Grown(old(State()).arrays[t], e + 1)])
    {
      if t !in componentArrays {
        return None;
      }
      var slot := componentArrays[t].At(e);
      assert Data() == old(Data())[t := Grown(old(Data())[t], e + 1)];
      return Some(slot);
    }

    method HasComponentOf(e: nat, t: ComponentType) returns (has: bool)
      requires Valid()
      ensures has <==> HasComponent(State(), e, t)
    {
      if !EntityExists(e) || t !in componentArrays {
        return false;
      }
      has := componentArrays[t].Contains(e);
    }
  }
}

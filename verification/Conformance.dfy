/** Every stage of an update does what its reference says, and so does the whole
    update, in every state of every run. The sections follow the stages: players,
    actions, leavers, waves, collisions, bullets, shots, marches; each ends with the
    lemma that the stage is lawful. The last section puts them together. */
module Conformance {
  import opened Protocol
  import opened World
  import opened Rules
  import opened Steps
  import opened Updates
  import opened Players
  import opened Leaving
  import opened Stages
  import Patrol

  // ----- New players -----

  lemma OnePlayerJoins(g: Game)
    requires Sound(g)
    ensures PlayersJoin(g, SpawnPlayer(g), g.spawned + 1)
  {
    var b := SpawnPlayer(g);
    assert b.frame == g.frame + [Background, b.frame[|g.frame| + 1], Important];
    assert JoinsAs(g, b, 0);
  }

  lemma JoinShifts(a: Game, s: Game, b: Game, i: nat)
    requires JoinsAs(s, b, i) && s.spawned == a.spawned + 1 && s.nextId == a.nextId + 1 && Adds(a, s, 3)
    ensures JoinsAs(a, b, i + 1)
  {
    assert 100_000_000 * (s.spawned + i + 1) == 100_000_000 * (a.spawned + (i + 1) + 1);
  }

  lemma JoinStays(a: Game, s: Game, b: Game)
    requires JoinsAs(a, s, 0) && Adds(a, s, 3) && |s.frame| <= |b.frame| && b.frame[..|s.frame|] == s.frame
    requires forall id :: id in s.entities ==> id in b.entities && b.entities[id] == s.entities[id]
    requires forall c :: c in s.owner ==> c in b.owner && b.owner[c] == s.owner[c]
    ensures JoinsAs(a, b, 0)
  {
    assert forall i :: 0 <= i < |s.frame| ==> b.frame[i] == b.frame[..|s.frame|][i];
  }

  lemma AddsTrans(a: Game, b: Game, c: Game, m: nat, n: nat)
    requires Adds(a, b, m) && Adds(b, c, n)
    ensures Adds(a, c, m + n)
  {
    assert c.frame[..|a.frame|] == c.frame[..|b.frame|][..|a.frame|];
  }

  lemma OldAndNewTrans(a: Game, b: Game, c: Game, m: nat, n: nat)
    requires OldAndNew(a, b, m) && OldAndNew(b, c, n)
    ensures OldAndNew(a, c, m + n)
  {
  }

  lemma {:induction false} PlayersJoinLawfully(g: Game, players: int)
    requires Sound(g)
    ensures PlayersJoin(g, InitializePlayers(g, players), players)
    decreases players - g.spawned
  {
    if g.spawned < players {
      var s, b := SpawnPlayer(g), InitializePlayers(g, players);
      PlayerOwnersOk(g);
      OnePlayerJoins(g);
      PlayersJoinLawfully(s, players);
      JoinMore(g, s, b, players);
    }
  }

  lemma JoinMore(a: Game, s: Game, b: Game, players: int)
    requires a.spawned < players && PlayersJoin(a, s, a.spawned + 1) && PlayersJoin(s, b, players)
    ensures PlayersJoin(a, b, players)
  {
    hide JoinsAs, Adds, OldAndNew;
    var n := players - a.spawned;
    AddsTrans(a, s, b, 3, 3 * (n - 1));
    OldAndNewTrans(a, s, b, 1, n - 1);
    forall i: nat | i < n ensures JoinsAs(a, b, i) {
      if i == 0 {
        assert JoinsAs(a, s, 0);
        AddsPrefix(s, b, 3 * (n - 1));
        OldStays(s, b, n - 1);
        JoinStays(a, s, b);
      } else {
        NewIds(a, s, 1);
        JoinShifts(a, s, b, i - 1);
      }
    }
  }

  lemma AddsPrefix(a: Game, b: Game, n: nat)
    requires Adds(a, b, n)
    ensures |a.frame| <= |b.frame| && b.frame[..|a.frame|] == a.frame
  {
  }

  lemma OldStays(a: Game, b: Game, n: nat)
    requires OldAndNew(a, b, n)
    ensures forall id :: id in a.entities ==> id in b.entities && b.entities[id] == a.entities[id]
  {
  }

  lemma NewIds(a: Game, b: Game, n: nat)
    requires OldAndNew(a, b, n)
    ensures b.nextId == a.nextId + n
  {
  }

  // ----- Actions -----

  /** The part of the reference that is about the shots. */
  ghost predicate ShotsFired(a: Game, b: Game, actions: seq<Action>) {
    var n := ShotsAmong(a, actions);
    && b == a.(entities := b.entities, nextId := b.nextId, frame := b.frame)
    && b.nextId == a.nextId + n && Adds(a, b, 2 * n)
    && (forall id :: id in b.entities <==> id in a.entities || a.nextId <= id < b.nextId)
    && forall i: nat :: i < |actions| && Fires(a, actions[i]) ==> ShotAs(a, b, actions, i)
  }

  /** What one action more changes of what was there and what was told: an owned
      entity at most, nothing told before. */
  ghost predicate ActsOn(a: Game, before: Game, after: Game) {
    && |before.frame| <= |after.frame| && after.frame[..|before.frame|] == before.frame
    && forall id :: id in before.entities && a.nextId <= id ==>
         id in after.entities && after.entities[id] == before.entities[id]
  }

  lemma ShotStays(a: Game, before: Game, after: Game, actions: seq<Action>, i: nat)
    requires i < |actions| - 1 && Fires(a, actions[i]) && ActsOn(a, before, after)
    requires ShotAs(a, before, actions[..|actions| - 1], i)
    ensures ShotAs(a, after, actions, i)
  {
    hide Net, ShotsAmong;
    assert actions[..|actions| - 1][..i] == actions[..i];
    assert forall j :: 0 <= j < |before.frame| ==> after.frame[j] == after.frame[..|before.frame|][j];
  }

  /** One action, in the numbers of the game. */
  lemma ActIs(g: Game, a: Action)
    requires IdsOk(g)
    ensures var b := Act(g, a);
            if !(a.player in g.owner && g.owner[a.player] in g.entities) then b == g
            else
              var id := g.owner[a.player];
              var e := g.entities[id];
              if a.code == 5 then
                var x, y := e.x + 50_000_000, e.y + 25_000_000;
                b == g.(entities := g.entities[g.nextId := Entity(Bullet, x, y, 1)], nextId := g.nextId + 1,
                        frame := g.frame + [Create(Bullet, g.nextId, x, y), Important])
              else id in b.entities && b == g.(entities := g.entities[id := b.entities[id]])
  {
  }

  lemma {:induction false} ActAllIds(g: Game, actions: seq<Action>)
    requires IdsOk(g)
    ensures IdsOk(ActAll(g, actions)) && ActAll(g, actions).owner == g.owner
  {
    hide Act;
    if actions != [] {
      ActAllIds(g, actions[..|actions| - 1]);
      ActKeepsIds(ActAll(g, actions[..|actions| - 1]), actions[|actions| - 1]);
    }
  }

  lemma ActKeepsIds(g: Game, a: Action)
    requires IdsOk(g)
    ensures IdsOk(Act(g, a)) && Act(g, a).owner == g.owner
  {
  }

  lemma ActOfOwner(g: Game, before: Game, a: Action, front: seq<Action>)
    requires IdsOk(before) && before.owner == g.owner
    requires a.player in g.owner && g.owner[a.player] in g.entities && g.owner[a.player] in before.entities
    requires g.owner[a.player] < g.nextId
    requires var id := g.owner[a.player];
             before.entities[id] == Moved(g.entities[id], Net(front, a.player).0, Net(front, a.player).1)
    ensures var after := Act(before, a);
            && ActsOn(g, before, after)
            && after == before.(entities := after.entities, nextId := after.nextId, frame := after.frame)
            && (if a.code == 5 then FiresInto(g, before, after, a.player, front)
                else after.nextId == before.nextId && after.frame == before.frame
                     && after.entities.Keys == before.entities.Keys)
  {
    hide Act, Net, EntityOk;
    ActIs(before, a);
  }

  lemma LastAct(g: Game, actions: seq<Action>)
    requires IdsOk(g) && OwnersOk(g) && actions != []
    requires ShotsFired(g, ActAll(g, actions[..|actions| - 1]), actions[..|actions| - 1])
    ensures var front, a := actions[..|actions| - 1], actions[|actions| - 1];
            var before, after := ActAll(g, front), ActAll(g, actions);
            && ActsOn(g, before, after)
            && after == before.(entities := after.entities, nextId := after.nextId, frame := after.frame)
            && (Fires(g, a) ==> FiresInto(g, before, after, a.player, front))
            && (!Fires(g, a) ==> after.nextId == before.nextId && after.frame == before.frame
                                 && after.entities.Keys == before.entities.Keys)
  {
    hide ActAll, Act, Net, ShotsAmong, ShotAs, Adds, IdsOk, OwnersOk;
    var front, a := actions[..|actions| - 1], actions[|actions| - 1];
    LastActIs(g, actions);
    var before := ActAll(g, front);
    OwnedIds(g);
    ActAllIds(g, front);
    if a.player in g.owner && g.owner[a.player] in g.entities {
      ActAllMoves(g, front, a.player, g.owner[a.player]);
      ActOfOwner(g, before, a, front);
    } else {
      ActIs(before, a);
    }
  }

  lemma LastActIs(g: Game, actions: seq<Action>)
    requires actions != []
    ensures ActAll(g, actions) == Act(ActAll(g, actions[..|actions| - 1]), actions[|actions| - 1])
  {
  }

  lemma OwnedIds(g: Game)
    requires OwnersOk(g)
    ensures forall c :: c in g.owner ==> 0 <= g.owner[c] < g.nextId
  {
  }

  /** One bullet more, at its client's player, which the actions before have moved. */
  ghost predicate FiresInto(g: Game, before: Game, after: Game, client: int, front: seq<Action>)
    requires client in g.owner && g.owner[client] in g.entities
  {
    var e, (dx, dy), id := g.entities[g.owner[client]], Net(front, client), before.nextId;
    var x, y := e.x + dx + 50_000_000, e.y + dy + 25_000_000;
    && after.nextId == id + 1 && after.frame == before.frame + [Create(Bullet, id, x, y), Important]
    && after.entities == before.entities[id := Entity(Bullet, x, y, 1)]
  }

  lemma {:induction false} ShotsAreFired(g: Game, actions: seq<Action>)
    requires IdsOk(g) && OwnersOk(g)
    ensures ShotsFired(g, ActAll(g, actions), actions)
  {
    if actions == [] {
      NoShots(g);
    } else {
      var front, a := actions[..|actions| - 1], actions[|actions| - 1];
      ShotsAreFired(g, front);
      LastAct(g, actions);
      MoreShots(g, ActAll(g, front), ActAll(g, actions), actions);
    }
  }

  lemma NoShots(g: Game)
    requires IdsOk(g)
    ensures ShotsFired(g, ActAll(g, []), [])
  {
  }

  lemma MoreShots(g: Game, before: Game, after: Game, actions: seq<Action>)
    requires actions != [] && ShotsFired(g, before, actions[..|actions| - 1]) && ActsOn(g, before, after)
    requires after == before.(entities := after.entities, nextId := after.nextId, frame := after.frame)
    requires var front, a := actions[..|actions| - 1], actions[|actions| - 1];
             && (Fires(g, a) ==> FiresInto(g, before, after, a.player, front))
             && (!Fires(g, a) ==> after.nextId == before.nextId && after.frame == before.frame
                                  && after.entities.Keys == before.entities.Keys)
    ensures ShotsFired(g, after, actions)
  {
    hide Net, ShotAs, ActsOn;
    var front, a := actions[..|actions| - 1], actions[|actions| - 1];
    forall i: nat | i < |actions| && Fires(g, actions[i]) ensures ShotAs(g, after, actions, i) {
      if i < |front| {
        assert front[i] == actions[i] && ShotAs(g, before, front, i);
        ShotStays(g, before, after, actions, i);
      } else {
        LastShot(g, before, after, actions);
      }
    }
  }

  lemma LastShot(g: Game, before: Game, after: Game, actions: seq<Action>)
    requires actions != [] && Fires(g, actions[|actions| - 1])
    requires before.nextId == g.nextId + ShotsAmong(g, actions[..|actions| - 1])
    requires |before.frame| == |g.frame| + 2 * ShotsAmong(g, actions[..|actions| - 1])
    requires FiresInto(g, before, after, actions[|actions| - 1].player, actions[..|actions| - 1])
    ensures ShotAs(g, after, actions, |actions| - 1)
  {
    hide Net, ShotsAmong;
  }

  lemma ActionsActLawfully(g: Game)
    requires Sound(g)
    ensures ActionsAct(g, ProcessActions(g).(actions := g.actions), g.actions)
  {
    hide ActAll, Net, ShotsAmong, ShotAs, Adds, Unprocessed, SeenAll;
    var b := ActAll(g, g.actions);
    ShotsAreFired(g, g.actions);
    forall client, id | Owns(g, client, id)
      ensures b.entities[id] == g.entities[id].(x := g.entities[id].x + Net(g.actions, client).0,
                                                y := g.entities[id].y + Net(g.actions, client).1)
    {
      ActAllMoves(g, g.actions, client, id);
    }
    forall id | id in g.entities && forall c :: c in g.owner ==> g.owner[c] != id
      ensures b.entities[id] == g.entities[id]
    {
      ActAllSpares(g, g.actions, id);
    }
    assert b.(actions := g.actions) == b;
    assert ProcessActions(g).(actions := g.actions) == b;
    SameShots(g, b);
  }

  lemma SameShots(g: Game, b: Game)
    requires ShotsFired(g, b, g.actions)
    ensures forall i: nat :: i < |g.actions| && Fires(g, g.actions[i]) ==> ShotAs(g, b, g.actions, i)
  {
  }

  // ----- Leavers -----

  lemma NobodyBuried(g: Game)
    ensures Buries(g, g)
  {
  }

  lemma OneMoreBuried(a: Game, b: Game, id: int)
    requires Buries(a, b) && id in b.entities && forall i :: i in b.entities ==> i in a.entities
    ensures Buries(a, Kill(b, id))
  {
    var c := Kill(b, id);
    assert c.frame == b.frame + [Delete(id), Important];
    assert c.frame[|b.frame|] == Delete(id);
    forall i | |a.frame| <= i < |c.frame| ensures BuriedAt(a, c, i) {
      if i < |b.frame| { assert BuriedAt(a, b, i); }
    }
    forall i | i in a.entities && i !in c.entities ensures Delete(i) in c.frame[|a.frame|..] {
      if i == id {
        assert c.frame[|a.frame|..][|b.frame| - |a.frame|] == Delete(id);
      } else {
        assert Delete(i) in b.frame[|a.frame|..];
        assert c.frame[|a.frame|..][..|b.frame| - |a.frame|] == b.frame[|a.frame|..];
      }
    }
  }

  /** Some of the clients own the entity. */
  ghost predicate OwnedAmong(g: Game, clients: seq<int>, id: int) {
    exists c :: c in clients && c in g.owner && g.owner[c] == id
  }

  ghost predicate OthersRemain(g: Game, b: Game, clients: seq<int>) {
    && (forall id :: id in b.entities <==> id in g.entities && !OwnedAmong(g, clients, id))
    && (forall id :: id in b.entities ==> b.entities[id] == g.entities[id])
  }

  lemma {:induction false} RemoveAllExactly(g: Game, clients: seq<int>)
    requires OwnersOk(g)
    ensures var b := RemoveAll(g, clients);
            && b == g.(entities := b.entities, frame := b.frame, owner := b.owner)
            && OthersRemain(g, b, clients) && Buries(g, b)
  {
    if clients == [] {
      NobodyBuried(g);
    } else {
      hide RemoveAll, Buries, OwnersOk;
      var front, last := clients[..|clients| - 1], clients[|clients| - 1];
      var before := RemoveAll(g, front);
      RemoveAllExactly(g, front);
      RemoveAllBook(g, front);
      RemoveAllOwners(g, front);
      assert clients == front + [last];
      LastRemoved(g, clients);
      RemoveOneMore(g, before, front, last);
    }
  }

  lemma LastRemoved(g: Game, clients: seq<int>)
    requires clients != []
    ensures RemoveAll(g, clients) == RemovePlayer(RemoveAll(g, clients[..|clients| - 1]), clients[|clients| - 1])
  {
  }

  lemma RemoveOneMore(g: Game, before: Game, front: seq<int>, last: int)
    requires OwnersOk(g) && OthersRemain(g, before, front) && Buries(g, before)
    requires before == g.(entities := before.entities, frame := before.frame, owner := before.owner)
    requires forall c :: c in before.owner <==> c in g.owner && c !in front
    requires forall c :: c in before.owner ==> before.owner[c] == g.owner[c]
    ensures var b := RemovePlayer(before, last);
            && b == g.(entities := b.entities, frame := b.frame, owner := b.owner)
            && OthersRemain(g, b, front + [last]) && Buries(g, b)
  {
    hide Buries, OwnedAmong;
    var b := RemovePlayer(before, last);
    forall id ensures OwnedAmong(g, front + [last], id)
                      <==> OwnedAmong(g, front, id) || (last in g.owner && g.owner[last] == id)
    {
      OneMoreOwner(g, front, last, id);
    }
    if last in before.owner {
      var id := before.owner[last];
      if id in before.entities {
        OneMoreBuried(g, before, id);
        SameBurial(g, Kill(before, id), b);
      } else {
        SameBurial(g, before, b);
      }
    } else if last in g.owner {
      FrontOwner(g, front, last);
    }
  }

  lemma OneMoreOwner(g: Game, front: seq<int>, last: int, id: int)
    ensures OwnedAmong(g, front + [last], id)
            <==> OwnedAmong(g, front, id) || (last in g.owner && g.owner[last] == id)
  {
    if OwnedAmong(g, front, id) {
      var c :| c in front && c in g.owner && g.owner[c] == id;
      assert c in front + [last];
    }
    assert last in front + [last];
  }

  lemma FrontOwner(g: Game, front: seq<int>, last: int)
    requires last in front && last in g.owner
    ensures OwnedAmong(g, front, g.owner[last])
  {
  }

  lemma SameBurial(a: Game, b: Game, c: Game)
    requires Buries(a, b) && c.entities == b.entities && c.frame == b.frame
    ensures Buries(a, c)
  {
    forall i | |a.frame| <= i < |c.frame| ensures BuriedAt(a, c, i) { assert BuriedAt(a, b, i); }
  }

  lemma LeaversGoLawfully(g: Game, clients: seq<int>)
    requires Sound(g)
    ensures LeaversGo(g, CheckDisconnected(g, clients), clients)
  {
    hide RemoveAll, Gone, Buries, Sound;
    SoundOwners(g);
    var b := CheckDisconnected(g, clients);
    if |clients| >= |g.previous| {
      NobodyBuried(g);
      SameBurial(g, g, b);
    } else {
      var gone := Gone(g.previous, clients);
      GoneAre(g.previous, clients);
      RemoveAllExactly(g, gone);
      RemoveAllOwners(g, gone);
      RemoveAllBook(g, gone);
      SameBurial(g, RemoveAll(g, gone), b);
      forall id ensures OwnedAmong(g, gone, id)
                        <==> !(forall c :: c in g.owner && g.owner[c] == id ==> !HasLeft(g, clients, c))
      {
        LeftIsGone(g, clients, gone, id);
      }
    }
  }

  lemma SoundOwners(g: Game)
    requires Sound(g)
    ensures OwnersOk(g)
  {
  }

  lemma LeftIsGone(g: Game, clients: seq<int>, gone: seq<int>, id: int)
    requires |clients| < |g.previous| && forall c :: c in gone <==> c in g.previous && c !in clients
    ensures OwnedAmong(g, gone, id) <==> !(forall c :: c in g.owner && g.owner[c] == id ==> !HasLeft(g, clients, c))
  {
    if OwnedAmong(g, gone, id) {
      var c :| c in gone && c in g.owner && g.owner[c] == id;
      assert HasLeft(g, clients, c);
    }
  }

  // ----- Waves and bosses -----

  lemma NobodyArrives(g: Game, kind: Kind, lives: int, place: int -> (int, int))
    ensures Arrive(g, g, kind, lives, 0, place)
  {
  }

  lemma SpawnIs(g: Game, kind: Kind, x: int, y: int)
    requires IdsOk(g) && (kind == Enemy || kind == Boss)
    ensures g.nextId !in g.entities
    ensures var b := Spawn(g, kind, x, y);
            && b == g.(entities := g.entities[g.nextId := Entity(kind, x, y, if kind == Boss then 3 else 1)],
                       nextId := g.nextId + 1, frame := g.frame + [Create(kind, g.nextId, x, y), Important])
            && IdsOk(b)
  {
  }

  function LivesOf(kind: Kind): int { if kind == Boss then 3 else 1 }

  lemma {:induction false} ManyArrive(g: Game, kind: Kind, n: nat, place: int -> (int, int))
    requires IdsOk(g) && (kind == Enemy || kind == Boss)
    ensures IdsOk(SpawnMany(g, kind, n, place))
    ensures Arrive(g, SpawnMany(g, kind, n, place), kind, LivesOf(kind), n, place)
  {
    hide Spawn, IdsOk, Arrive;
    if n == 0 {
      NobodyArrives(g, kind, LivesOf(kind), place);
    } else {
      ManyArrive(g, kind, n - 1, place);
      SpawnArrives(g, SpawnMany(g, kind, n - 1, place), kind, n, place);
    }
  }

  lemma SpawnArrives(g: Game, before: Game, kind: Kind, n: nat, place: int -> (int, int))
    requires n > 0 && IdsOk(before) && (kind == Enemy || kind == Boss)
    requires Arrive(g, before, kind, LivesOf(kind), n - 1, place)
    ensures var b := Spawn(before, kind, place(n - 1).0, place(n - 1).1);
            IdsOk(b) && Arrive(g, b, kind, LivesOf(kind), n, place)
  {
    hide Spawn, IdsOk, Arrive;
    SpawnIs(before, kind, place(n - 1).0, place(n - 1).1);
    OneMoreArrives(g, before, Spawn(before, kind, place(n - 1).0, place(n - 1).1), kind, LivesOf(kind), n, place);
  }

  lemma OneMoreArrives(g: Game, before: Game, b: Game, kind: Kind, lives: int, n: nat, place: int -> (int, int))
    requires n > 0 && Arrive(g, before, kind, lives, n - 1, place) && before.nextId !in before.entities
    requires var (x, y) := place(n - 1);
             b == before.(entities := before.entities[before.nextId := Entity(kind, x, y, lives)],
                          nextId := before.nextId + 1,
                          frame := before.frame + [Create(kind, before.nextId, x, y), Important])
    ensures Arrive(g, b, kind, lives, n, place)
  {
    hide ArrivesAs;
    assert b.frame[..|g.frame|] == before.frame[..|g.frame|];
    forall i: nat | i < n ensures ArrivesAs(g, b, kind, lives, i, place(i)) {
      if i < n - 1 {
        assert ArrivesAs(g, before, kind, lives, i, place(i));
        ArrivesStill(g, before, b, kind, lives, i, place(i));
      } else {
        ArrivesLast(g, before, b, kind, lives, i, place(i));
      }
    }
  }

  lemma ArrivesStill(g: Game, before: Game, b: Game, kind: Kind, lives: int, i: nat, place: (int, int))
    requires ArrivesAs(g, before, kind, lives, i, place) && before.frame <= b.frame
    requires forall id :: id in before.entities ==> id in b.entities && b.entities[id] == before.entities[id]
    ensures ArrivesAs(g, b, kind, lives, i, place)
  {
  }

  lemma ArrivesLast(g: Game, before: Game, b: Game, kind: Kind, lives: int, i: nat, place: (int, int))
    requires before.nextId == g.nextId + i && |before.frame| == |g.frame| + 2 * i
    requires b.entities == before.entities[before.nextId := Entity(kind, place.0, place.1, lives)]
    requires b.frame == before.frame + [Create(kind, before.nextId, place.0, place.1), Important]
    ensures ArrivesAs(g, b, kind, lives, i, place)
  {
  }

  lemma ClearedMeans(g: Game, kind: Kind)
    ensures Cleared(g, kind) <==> OfKind(g, kind) == {}
  {
    if Cleared(g, kind) {
      assert forall id :: id !in OfKind(g, kind);
    } else {
      var id :| id in g.entities && g.entities[id].kind == kind;
      assert id in OfKind(g, kind);
    }
  }

  lemma HostilesComeLawfully(g: Game, place: int -> (int, int))
    requires IdsOk(g)
    ensures HostilesCome(g, SpawnHostiles(g, place), place)
  {
    hide SpawnMany, Cleared, OfKind, Step;
    ClearedMeans(g, Enemy);
    ManyArrive(g, Enemy, g.limits.enemiesPerWave, place);
    SpawnManyStep(g, g, Enemy, g.limits.enemiesPerWave, place);
    ManyArrive(g, Boss, g.limits.bosses, place);
    SpawnManyStep(g, g, Boss, g.limits.bosses, place);
  }

  // ----- Collisions -----

  lemma TouchingIsHitting(g: Game, r: Reach, i: int, j: int)
    requires IdsOk(g)
    ensures Touching(g, i, j, r.a, r.b, r.dx, r.dy) <==> Hits(g.entities, r, i, j)
    ensures Touching(g, i, j, r.a, r.b, r.dx, r.dy) ==> 0 <= i < g.nextId && 0 <= j < g.nextId
  {
  }

  lemma StruckLawfully(g: Game, i: int, j: int)
    requires i in g.entities && j in g.entities && i != j
    ensures StruckAre(g, StrikeBoth(g, i, j), i, j)
  {
    var mid, b := Strike(g, i, g.entities[i]), StrikeBoth(g, i, j);
    assert mid.frame == g.frame + Obituary(g, i);
    assert b.frame == mid.frame + Obituary(g, j);
  }

  lemma CollideLawfully(g: Game, r: Reach)
    requires IdsOk(g)
    ensures FirstPairIsStruck(g, Collide(g, r), r.a, r.b, r.dx, r.dy)
  {
    hide Hits, IdsOk, StruckAre, StrikeBoth, Touching;
    FirstHitHits(g.entities, r, g.nextId, g.nextId);
    match FirstHit(g.entities, r, g.nextId, g.nextId) {
      case None =>
        forall i, j ensures !Touching(g, i, j, r.a, r.b, r.dx, r.dy) {
          TouchingIsHitting(g, r, i, j);
        }
      case Some((a, b)) =>
        HittingAre(g, r, a, b);
        StruckLawfully(g, a, b);
        TouchingIsHitting(g, r, a, b);
        forall c, d | Touching(g, c, d, r.a, r.b, r.dx, r.dy) ensures a < c || (a == c && b <= d) {
          TouchingIsHitting(g, r, c, d);
        }
        assert FirstTouching(g, a, b, r.a, r.b, r.dx, r.dy);
    }
  }

  lemma HittingAre(g: Game, r: Reach, i: int, j: int)
    requires Hits(g.entities, r, i, j)
    ensures i in g.entities && j in g.entities && i != j
  {
  }

  // ----- Bullets -----

  predicate LeavesField(es: map<int, Entity>, kind: Kind, n: nat, id: int) {
    0 <= id < n && id in es && es[id].kind == kind && Leaves(es[id])
  }

  predicate IsDeparture(es: map<int, Entity>, kind: Kind, n: nat, e: Event) {
    e == Important || (e.Delete? && LeavesField(es, kind, n, e.id))
  }

  lemma {:induction false} DeparturesAre(es: map<int, Entity>, kind: Kind, n: nat)
    ensures forall e :: e in Departures(es, kind, n) ==> IsDeparture(es, kind, n, e)
    ensures forall id :: LeavesField(es, kind, n, id) ==> Delete(id) in Departures(es, kind, n)
  {
    hide Leaves;
    if n > 0 {
      DeparturesAre(es, kind, n - 1);
      var before, ds := Departures(es, kind, n - 1), Departures(es, kind, n);
      assert forall e :: IsDeparture(es, kind, n - 1, e) ==> IsDeparture(es, kind, n, e);
      if LeavesField(es, kind, n, n - 1) {
        assert ds == before + [Delete(n - 1), Important];
      } else {
        assert ds == before;
      }
    }
  }

  lemma FlightBuries(g: Game, kind: Kind)
    requires IdsOk(g)
    ensures Buries(g, Fly(g, kind))
  {
    hide Leaves, Departures, EntityOk;
    var b, ds := Fly(g, kind), Departures(g.entities, kind, g.nextId);
    DeparturesAre(g.entities, kind, g.nextId);
    assert b.frame == g.frame + ds && b.frame[|g.frame|..] == ds;
    forall i | |g.frame| <= i < |b.frame| ensures BuriedAt(g, b, i) {
      assert b.frame[i] == ds[i - |g.frame|] && IsDeparture(g.entities, kind, g.nextId, b.frame[i]);
    }
    forall id | id in g.entities && id !in b.entities ensures Delete(id) in b.frame[|g.frame|..] {
      assert LeavesField(g.entities, kind, g.nextId, id);
    }
  }

  lemma BulletsFlyLawfully(g: Game)
    requires IdsOk(g)
    ensures BulletsFly(g, Fly(g, Bullet))
  {
    hide Buries, Departures;
    FlightBuries(g, Bullet);
  }

  lemma ShotsFlyLawfully(g: Game)
    requires IdsOk(g)
    ensures ShotsFly(g, Fly(g, EnemyBullet))
  {
    hide Buries, Departures;
    FlightBuries(g, EnemyBullet);
  }

  lemma WinIsToldLawfully(g: Game)
    ensures WinIsTold(g, CheckWin(g))
  {
    hide Cleared, OfKind;
    ClearedMeans(g, Enemy);
    ClearedMeans(g, Boss);
    assert g.frame + [] == g.frame;
  }

  // ----- Counting -----

  function KindBelow(es: map<int, Entity>, kind: Kind, n: int): set<int> {
    set id | id in es && 0 <= id < n && es[id].kind == kind
  }

  lemma KindBelowNext(es: map<int, Entity>, kind: Kind, n: nat)
    ensures KindBelow(es, kind, n + 1)
            == KindBelow(es, kind, n) + if n in es && es[n].kind == kind then {n} else {}
    ensures n !in KindBelow(es, kind, n) && KindBelow(es, kind, 0) == {}
  {
  }

  lemma {:induction false} CountIsSize(es: map<int, Entity>, kind: Kind, n: nat)
    ensures Count(es, kind, n) == |KindBelow(es, kind, n)|
  {
    hide KindBelow;
    KindBelowNext(es, kind, if n == 0 then 0 else n - 1);
    if n > 0 {
      CountIsSize(es, kind, n - 1);
    }
  }

  /** The counts of the rules are sizes of sets. */
  lemma CountOfKind(g: Game, kind: Kind)
    requires IdsOk(g)
    ensures Count(g.entities, kind, g.nextId) == |OfKind(g, kind)|
    ensures forall id: nat :: Count(g.entities, kind, id) == Rank(OfKind(g, kind), id)
  {
    CountIsSize(g.entities, kind, g.nextId);
    assert OfKind(g, kind) == KindBelow(g.entities, kind, g.nextId);
    forall id: nat ensures Count(g.entities, kind, id) == Rank(OfKind(g, kind), id) {
      CountIsSize(g.entities, kind, id);
      assert (set i | i in OfKind(g, kind) && i < id) == KindBelow(g.entities, kind, id);
    }
  }

  // ----- Shots -----

  /** The turn of one shooter: its entity is changed, and it may have fired. */
  ghost predicate TurnTaken(before: Game, after: Game, id: int, e: Entity, fires: bool) {
    var shot, x, y := before.nextId, e.x - 50_000_000, e.y - 25_000_000;
    && after.entities == (if fires then before.entities[id := e][shot := Entity(EnemyBullet, x, y, 1)]
                          else before.entities[id := e])
    && after.nextId == before.nextId + (if fires then 1 else 0)
    && after.frame == before.frame + (if fires then [Create(EnemyBullet, shot, x, y), Important] else [])
    && after == before.(entities := after.entities, nextId := after.nextId, frame := after.frame,
                        direction := after.direction, distance := after.distance)
  }

  lemma ShootIs(g: Game, id: int, cap: nat, roll: bool)
    requires IdsOk(g) && id in g.entities
    ensures TurnTaken(g, Shoot(g, id, cap, roll), id, g.entities[id], EnemyBullets(g) < cap && roll)
    ensures Shoot(g, id, cap, roll).direction == g.direction && Shoot(g, id, cap, roll).distance == g.distance
  {
    hide EnemyBullets, EntityOk;
    assert g.entities[id := g.entities[id]] == g.entities;
    assert g.frame + [] == g.frame;
  }

  lemma {:induction false} CountSame(es: map<int, Entity>, fs: map<int, Entity>, kind: Kind, n: nat)
    requires forall i :: 0 <= i < n ==> (i in es && es[i].kind == kind <==> i in fs && fs[i].kind == kind)
    ensures Count(fs, kind, n) == Count(es, kind, n)
  {
    if n > 0 { CountSame(es, fs, kind, n - 1); }
  }

  /** The number of live enemy bullets grows with the shots. */
  lemma TurnBullets(before: Game, after: Game, id: int, e: Entity, fires: bool)
    requires IdsOk(before) && TurnTaken(before, after, id, e, fires)
    requires id in before.entities && before.entities[id].kind != EnemyBullet && e.kind != EnemyBullet
    ensures EnemyBullets(after) == EnemyBullets(before) + if fires then 1 else 0
  {
    CountSame(before.entities, after.entities, EnemyBullet, before.nextId);
  }

  lemma PushedIsMoved(e: Entity, heading: int)
    ensures Pushed(e, heading) == Moved(e, HeadingMove(heading).0, HeadingMove(heading).1)
  {
  }

  lemma EnemyTurnIs(g: Game, id: int, roll: bool)
    requires IdsOk(g) && id in g.entities && g.entities[id].kind == Enemy
    ensures TurnTaken(g, EnemyTurn(g, id, roll), id, Pushed(g.entities[id], g.direction),
                      EnemyBullets(g) < g.limits.maxEnemyBullets && roll)
    ensures IdsOk(EnemyTurn(g, id, roll))
  {
    hide EnemyBullets, Shoot, IdsOk, Pushed, HeadingMove, TurnTaken;
    var w := Advance(Walk(g, id, g.direction));
    PushedIsMoved(g.entities[id], g.direction);
    WalkWalked(g, id, g.direction);
    WalkBullets(g, id, g.direction);
    ShootIs(w, id, g.limits.maxEnemyBullets, roll);
    EnemyTurnWalked(g, id, roll);
    AfterWalk(g, w, EnemyTurn(g, id, roll), id, Pushed(g.entities[id], g.direction),
              EnemyBullets(g) < g.limits.maxEnemyBullets && roll);
  }

  /** A walk and the shot after it are one turn. */
  lemma AfterWalk(g: Game, w: Game, b: Game, id: int, e: Entity, fires: bool)
    requires id in g.entities && w.entities == g.entities[id := e]
    requires w == g.(entities := w.entities, direction := w.direction, distance := w.distance)
    requires TurnTaken(w, b, id, e, fires)
    ensures TurnTaken(g, b, id, e, fires)
  {
    assert w.entities[id := e] == w.entities;
  }

  lemma WalkBullets(g: Game, id: int, heading: int)
    requires id in g.entities
    ensures EnemyBullets(Walk(g, id, heading)) == EnemyBullets(g)
    ensures EnemyBullets(Advance(Walk(g, id, heading))) == EnemyBullets(g)
  {
    CountSame(g.entities, Walk(g, id, heading).entities, EnemyBullet, g.nextId);
  }

  lemma BossTurnIs(g: Game, id: int, heading: int, roll: bool)
    requires IdsOk(g) && id in g.entities && g.entities[id].kind == Boss
    ensures TurnTaken(g, BossTurn(g, id, heading, roll), id, Pushed(g.entities[id], heading),
                      EnemyBullets(g) < g.limits.maxEnemyBullets + 5 && roll)
    ensures IdsOk(BossTurn(g, id, heading, roll))
    ensures BossTurn(g, id, heading, roll).direction == g.direction
    ensures BossTurn(g, id, heading, roll).distance == g.distance
  {
    hide EnemyBullets, Shoot, IdsOk, Pushed, HeadingMove, TurnTaken;
    var w := Walk(g, id, heading);
    PushedIsMoved(g.entities[id], heading);
    WalkWalked(g, id, heading);
    WalkBullets(g, id, heading);
    ShootIs(w, id, g.limits.maxEnemyBullets + 5, roll);
    BossTurnWalked(g, id, heading, roll);
    AfterWalk(g, w, BossTurn(g, id, heading, roll), id, Pushed(g.entities[id], heading),
              EnemyBullets(g) < g.limits.maxEnemyBullets + 5 && roll);
  }

  ghost predicate VolleySoFar(a: Game, b: Game, shooters: set<int>, cap: nat) {
    && IdsOk(b) && Volley(a, b, shooters, cap)
    && EnemyBullets(b) == EnemyBullets(a) + (b.nextId - a.nextId)
  }

  lemma NoVolley(g: Game, cap: nat)
    requires IdsOk(g)
    ensures VolleySoFar(g, g, {}, cap)
  {
  }

  /** Whether the next shooter finds room. */
  lemma RoomLeft(a: Game, b: Game, shooters: set<int>, cap: nat)
    requires IdsOk(a) && VolleySoFar(a, b, shooters, cap)
    ensures b.nextId - a.nextId == Min(|shooters|, Room(a, cap))
    ensures EnemyBullets(b) < cap <==> |shooters| < Room(a, cap)
  {
    hide EnemyBullets, ShotFrom, Adds, OfKind, IdsOk;
    BulletsAreOfKind(a);
  }

  lemma BulletsAreOfKind(g: Game)
    requires IdsOk(g)
    ensures EnemyBullets(g) == |OfKind(g, EnemyBullet)|
  {
    CountOfKind(g, EnemyBullet);
  }

  lemma RankOfMore(s: set<int>, id: int)
    requires forall i :: i in s ==> i < id
    ensures Rank(s + {id}, id) == |s| && |s + {id}| == |s| + 1
    ensures forall i :: i in s ==> Rank(s + {id}, i) == Rank(s, i)
  {
    assert (set i | i in s + {id} && i < id) == s;
    forall i | i in s ensures Rank(s + {id}, i) == Rank(s, i) {
      assert (set j | j in s + {id} && j < i) == set j | j in s && j < i;
    }
  }

  lemma RankBelow(s: set<int>, id: int)
    requires id in s
    ensures Rank(s, id) < |s|
  {
    var below := set i | i in s && i < id;
    assert below <= s - {id};
    SmallerSet(below, s - {id});
  }

  lemma SmallerSet(s: set<int>, t: set<int>)
    requires s <= t
    ensures |s| <= |t|
  {
    assert t == s + (t - s);
  }

  /** Another shooter's turn leaves the earlier shots as they are. */
  lemma ShotRemains(a: Game, before: Game, after: Game, id: int, e: Entity, fires: bool, shooter: int, r: nat)
    requires ShotFrom(a, before, shooter, r) && TurnTaken(before, after, id, e, fires)
    requires shooter != id && id < a.nextId && before.nextId !in before.entities
    ensures ShotFrom(a, after, shooter, r)
  {
  }

  lemma ShotIsFired(a: Game, before: Game, after: Game, id: int, e: Entity, r: nat)
    requires TurnTaken(before, after, id, e, true) && id < before.nextId
    requires before.nextId == a.nextId + r && |before.frame| == |a.frame| + 2 * r
    ensures ShotFrom(a, after, id, r)
  {
  }

  lemma VolleyGoesOn(a: Game, before: Game, after: Game, shooters: set<int>, cap: nat, id: int, e: Entity, roll: bool)
    requires IdsOk(a) && VolleySoFar(a, before, shooters, cap) && IdsOk(before) && IdsOk(after)
    requires id in a.entities && id in before.entities
    requires before.entities[id].kind != EnemyBullet && e.kind != EnemyBullet
    requires forall i :: i in shooters ==> i < id
    requires TurnTaken(before, after, id, e, EnemyBullets(before) < cap && roll)
    ensures VolleySoFar(a, after, if roll then shooters + {id} else shooters, cap)
  {
    hide EnemyBullets, ShotFrom, OfKind, IdsOk, Rank, Room;
    var fires := EnemyBullets(before) < cap && roll;
    var more, n := if roll then shooters + {id} else shooters, after.nextId - a.nextId;
    RoomLeft(a, before, shooters, cap);
    TurnBullets(before, after, id, e, fires);
    RankOfMore(shooters, id);
    NextIsNew(before);
    KnownId(a, id);
    assert n == Min(|more|, Room(a, cap));
    AfterTurn(a, before, after, id, e, fires);
    forall i | i in more && Rank(more, i) < n ensures ShotFrom(a, after, i, Rank(more, i)) {
      if i == id {
        ShotIsFired(a, before, after, id, e, Rank(more, i));
      } else {
        RankBelow(shooters, i);
        ShotRemains(a, before, after, id, e, fires, i, Rank(shooters, i));
      }
    }
  }

  lemma AfterTurn(a: Game, before: Game, after: Game, id: int, e: Entity, fires: bool)
    requires TurnTaken(before, after, id, e, fires) && id in before.entities
    requires |a.frame| <= |before.frame| && before.frame[..|a.frame|] == a.frame
    requires forall i :: i in before.entities <==> i in a.entities || a.nextId <= i < before.nextId
    requires a.nextId <= before.nextId
    ensures |after.frame| == |before.frame| + (if fires then 2 else 0) && after.frame[..|a.frame|] == a.frame
    ensures forall i :: i in after.entities <==> i in a.entities || a.nextId <= i < after.nextId
  {
  }

  lemma ShootersNext(s: set<int>, shoots: int -> bool, n: nat)
    ensures Shooters(Under(s, n + 1), shoots)
            == if n in s && shoots(n) then Shooters(Under(s, n), shoots) + {n} else Shooters(Under(s, n), shoots)
    ensures forall i :: i in Shooters(Under(s, n), shoots) ==> i < n
  {
  }

  function Under(s: set<int>, n: int): set<int> { set i | i in s && i < n }

  lemma UnderNothing(g: Game, kind: Kind, shoots: int -> bool)
    requires IdsOk(g)
    ensures Shooters(Under(OfKind(g, kind), 0), shoots) == {}
    ensures Under(OfKind(g, kind), g.nextId) == OfKind(g, kind)
  {
  }

  lemma InKind(g: Game, kind: Kind, id: int)
    ensures id in OfKind(g, kind) <==> id in g.entities && g.entities[id].kind == kind
  {
  }

  /** The books that a round of turns leaves alone. */
  ghost predicate SameBooks(a: Game, b: Game) {
    b == a.(entities := b.entities, nextId := b.nextId, frame := b.frame,
            direction := b.direction, distance := b.distance)
  }

  lemma {:induction false} EnemiesShoot(g: Game, rolls: int -> bool, n: nat)
    requires IdsOk(g)
    ensures var b := EnemyTurns(g, rolls, n);
            && SameBooks(g, b)
            && VolleySoFar(g, b, Shooters(Under(OfKind(g, Enemy), n), rolls), g.limits.maxEnemyBullets)
  {
    hide EnemyTurn, VolleySoFar, OfKind, Under, Shooters, IdsOk, EnemyBullets, Pushed;
    UnderNothing(g, Enemy, rolls);
    if n == 0 {
      NoVolley(g, g.limits.maxEnemyBullets);
    } else {
      var before := EnemyTurns(g, rolls, n - 1);
      EnemiesShoot(g, rolls, n - 1);
      EnemyTurnsWalked(g, rolls, n - 1);
      ShootersNext(OfKind(g, Enemy), rolls, n - 1);
      InKind(g, Enemy, n - 1);
      if n - 1 in g.entities && g.entities[n - 1].kind == Enemy {
        var e := Pushed(before.entities[n - 1], before.direction);
        EnemyTurnIs(before, n - 1, rolls(n - 1));
        PushedKind(before.entities[n - 1], before.direction);
        VolleyGoesOn(g, before, EnemyTurn(before, n - 1, rolls(n - 1)),
                     Shooters(Under(OfKind(g, Enemy), n - 1), rolls), g.limits.maxEnemyBullets, n - 1, e, rolls(n - 1));
      }
    }
  }

  lemma PushedKind(e: Entity, heading: int)
    ensures Pushed(e, heading).kind == e.kind
  {
  }

  lemma EnemiesMarchLawfully(g: Game, rolls: int -> bool, k: nat)
    requires IdsOk(g) && Patrol.Clock(g, k)
    ensures EnemiesMarch(g, EnemyTurns(g, rolls, g.nextId), k, rolls)
  {
    hide EnemyTurns, OfKind, Volley, IdsOk, EnemyBullets, Rank, Pushed, Under, Shooters, Patrol.Clock;
    var b := EnemyTurns(g, rolls, g.nextId);
    EnemiesShoot(g, rolls, g.nextId);
    UnderNothing(g, Enemy, rolls);
    ClockAfter(g, rolls, k);
    forall id | id in g.entities
      ensures id in b.entities
      ensures b.entities[id]
              == if id in OfKind(g, Enemy) then Pushed(g.entities[id], ((k + Rank(OfKind(g, Enemy), id)) / 13) % 4)
                 else g.entities[id]
    {
      MarchOfOne(g, rolls, k, id);
    }
  }

  lemma ClockAfter(g: Game, rolls: int -> bool, k: nat)
    requires IdsOk(g) && Patrol.Clock(g, k)
    ensures var b, after := EnemyTurns(g, rolls, g.nextId), k + |OfKind(g, Enemy)|;
            b.direction == (after / 13) % 4 && b.distance == 2_000_000 * (after % 13)
  {
    hide EnemyTurns, OfKind, IdsOk, Patrol.Heading, Count, Patrol.InRound;
    Patrol.EnemyTurnsMarch(g, rolls, g.nextId, k);
    CountOfKind(g, Enemy);
    HeadingIs(k + |OfKind(g, Enemy)|);
  }

  lemma MarchOfOne(g: Game, rolls: int -> bool, k: nat, id: int)
    requires IdsOk(g) && Patrol.Clock(g, k) && id in g.entities
    ensures var b := EnemyTurns(g, rolls, g.nextId);
            && id in b.entities
            && b.entities[id]
               == if id in OfKind(g, Enemy) then Pushed(g.entities[id], ((k + Rank(OfKind(g, Enemy), id)) / 13) % 4)
                  else g.entities[id]
  {
    hide EnemyTurns, OfKind, IdsOk, Rank, Pushed, Patrol.Clock, Patrol.InRound, Count;
    var b := EnemyTurns(g, rolls, g.nextId);
    Patrol.EnemyTurnsMarch(g, rolls, g.nextId, k);
    EnemyTurnsWalked(g, rolls, g.nextId);
    CountOfKind(g, Enemy);
    KnownId(g, id);
    InKind(g, Enemy, id);
    assert Patrol.InRound(g, b, g.nextId, k, id);
    if g.entities[id].kind == Enemy { MarchedIsPushed(g, b, id, k); }
  }

  lemma HeadingIs(k: nat)
    ensures Patrol.Heading(k) == (k / 13) % 4
  {
  }

  lemma KnownId(g: Game, id: int)
    requires IdsOk(g) && id in g.entities
    ensures 0 <= id < g.nextId
  {
  }

  lemma MarchedIsPushed(g: Game, b: Game, id: nat, k: nat)
    requires id in g.entities && g.entities[id].kind == Enemy && id < g.nextId
    requires Patrol.InRound(g, b, g.nextId, k, id)
    ensures id in b.entities
    ensures b.entities[id] == Pushed(g.entities[id], ((k + Count(g.entities, Enemy, id)) / 13) % 4)
  {
    hide Pushed, HeadingMove, Count;
    HeadingIs(k + Count(g.entities, Enemy, id));
    PushedIsMoved(g.entities[id], Patrol.Heading(k + Count(g.entities, Enemy, id)));
  }

  /** Where the bosses are once those below `n` have had their turns. */
  ghost predicate BossesSoFar(a: Game, b: Game, n: nat, heading: int -> int) {
    forall id :: id in a.entities ==>
      id in b.entities && b.entities[id] == if id in OfKind(a, Boss) && id < n
                                            then Pushed(a.entities[id], heading(id) % 4) else a.entities[id]
  }

  lemma NobodyYet(g: Game, heading: int -> int)
    requires IdsOk(g)
    ensures BossesSoFar(g, g, 0, heading)
  {
  }

  lemma OneMoreBoss(g: Game, before: Game, after: Game, n: nat, heading: int -> int, fires: bool)
    requires BossesSoFar(g, before, n, heading) && before.nextId !in before.entities
    requires n in g.entities && g.entities[n].kind == Boss && n in before.entities
    requires TurnTaken(before, after, n, Pushed(before.entities[n], heading(n) % 4), fires)
    ensures BossesSoFar(g, after, n + 1, heading)
  {
    hide Pushed;
  }

  lemma NoBoss(g: Game, b: Game, n: nat, heading: int -> int)
    requires BossesSoFar(g, b, n, heading) && !(n in g.entities && g.entities[n].kind == Boss)
    ensures BossesSoFar(g, b, n + 1, heading)
  {
    hide Pushed;
  }

  lemma NextIsNew(g: Game)
    requires IdsOk(g)
    ensures g.nextId !in g.entities
  {
  }

  lemma {:induction false} BossesTurn(g: Game, input: Input, n: nat)
    requires IdsOk(g)
    ensures var b := BossTurns(g, input, n);
            && SameBooks(g, b) && b.direction == g.direction && b.distance == g.distance
            && BossesSoFar(g, b, n, input.bossHeading)
            && VolleySoFar(g, b, Shooters(Under(OfKind(g, Boss), n), input.bossShoots), g.limits.maxEnemyBullets + 5)
  {
    hide BossTurn, VolleySoFar, OfKind, Under, Shooters, IdsOk, EnemyBullets, Pushed, BossesSoFar;
    UnderNothing(g, Boss, input.bossShoots);
    if n == 0 {
      NoVolley(g, g.limits.maxEnemyBullets + 5);
      NobodyYet(g, input.bossHeading);
    } else {
      var before := BossTurns(g, input, n - 1);
      BossesTurn(g, input, n - 1);
      BossTurnsWalked(g, input, n - 1);
      ShootersNext(OfKind(g, Boss), input.bossShoots, n - 1);
      InKind(g, Boss, n - 1);
      if n - 1 in g.entities && g.entities[n - 1].kind == Boss {
        var heading, roll := input.bossHeading(n - 1) % 4, input.bossShoots(n - 1);
        var e := Pushed(before.entities[n - 1], heading);
        BossTurnIs(before, n - 1, heading, roll);
        PushedKind(before.entities[n - 1], heading);
        NextIsNew(before);
        OneMoreBoss(g, before, BossTurn(before, n - 1, heading, roll), n - 1, input.bossHeading,
                    EnemyBullets(before) < g.limits.maxEnemyBullets + 5 && roll);
        VolleyGoesOn(g, before, BossTurn(before, n - 1, heading, roll),
                     Shooters(Under(OfKind(g, Boss), n - 1), input.bossShoots), g.limits.maxEnemyBullets + 5,
                     n - 1, e, roll);
      } else {
        NoBoss(g, before, n - 1, input.bossHeading);
      }
    }
  }

  lemma BossesMoveLawfully(g: Game, input: Input)
    requires IdsOk(g)
    ensures BossesMove(g, BossTurns(g, input, g.nextId), input.bossHeading, input.bossShoots)
  {
    hide BossTurns, OfKind, Volley, EnemyBullets, Pushed, EntityOk;
    BossesTurn(g, input, g.nextId);
    UnderNothing(g, Boss, input.bossShoots);
  }

  // ----- The whole update -----

  lemma FirstStages(g: Game, input: Input)
    requires Sound(g) && Waiting(g.actions)
    ensures var s0, s1, s3, s4 := Begin(g), Joined(g, input), Checked(g, input), Opening(g, input);
            var s2 := ProcessActions(s1);
            && PlayersJoin(s0, s1, input.players)
            && s2.actions == Unknown(s1.actions) && ActionsAct(s1, s2.(actions := s1.actions), s1.actions)
            && LeaversGo(s2, s3, input.clients) && HostilesCome(s3, s4, input.place)
  {
    hide PlayersJoin, ActionsAct, LeaversGo, HostilesCome, InitializePlayers, ActAll, CheckDisconnected, SpawnHostiles;
    hide Sound, Since, Survives, Step, Unprocessed, Unknown, Update, Opening;
    CheckedStep(g, input);
    OpeningIs(g, input);
    PlayersJoinLawfully(Begin(g), input.players);
    InitializePlayersBook(Begin(g), input.players);
    KnownAreConsumed(g.actions);
    ActionsActLawfully(Joined(g, input));
    LeaversGoLawfully(ProcessActions(Joined(g, input)), input.clients);
    SoundIds(Checked(g, input));
    HostilesComeLawfully(Checked(g, input), input.place);
  }

  /** The states between the stages are sound. */
  lemma StagesSound(g: Game, input: Input)
    requires Sound(g)
    ensures var c := Collide(Opening(g, input), BULLET_ENEMY);
            var f := Fly(c, Bullet);
            var e := MoveEnemies(f, input.enemyTick, input.enemyShoots);
            && IdsOk(Opening(g, input)) && IdsOk(c) && IdsOk(f) && IdsOk(e)
            && IdsOk(BeforeShotsFly(g, input)) && IdsOk(Middle(g, input))
            && IdsOk(Collide(Middle(g, input), BULLET_BOSS))
  {
    hide Opening, Collide, Fly, MoveEnemies, Step, Sound, Since, IdsOk, Survives;
    var b, c := Begin(g), Collide(Opening(g, input), BULLET_ENEMY);
    var f := Fly(c, Bullet);
    OpeningStep(g, input);
    SoundIds(Opening(g, input));
    BeforeBulletsFlyStep(g, input);
    FlySound(b, c, Bullet);
    SoundIds(f);
    MoveEnemiesStep(b, f, input.enemyTick, input.enemyShoots);
    Sounds(b, f, MoveEnemies(f, input.enemyTick, input.enemyShoots), {Enemy});
    BeforeShotsFlyStep(g, input);
    MiddleStep(g, input);
    SoundIds(Middle(g, input));
    CollideStep(b, Middle(g, input), BULLET_BOSS);
    Sounds(b, Middle(g, input), Collide(Middle(g, input), BULLET_BOSS), {Boss});
  }

  lemma MiddleStages(g: Game, input: Input, k: nat)
    requires Sound(g) && Patrol.Clock(g, k)
    ensures var s4, s5 := Opening(g, input), Collide(Opening(g, input), BULLET_ENEMY);
            var s6 := Fly(s5, Bullet);
            var s7 := MoveEnemies(s6, input.enemyTick, input.enemyShoots);
            && FirstPairIsStruck(s4, s5, Bullet, Enemy, 20_000_000, 40_000_000)
            && BulletsFly(s5, s6)
            && (if input.enemyTick then EnemiesMarch(s6, s7, k, input.enemyShoots) else s7 == s6)
  {
    hide FirstPairIsStruck, BulletsFly, EnemiesMarch, Opening, Collide, Fly, EnemyTurns, Sound, IdsOk, Patrol.Clock;
    StagesSound(g, input);
    var s4, s5 := Opening(g, input), Collide(Opening(g, input), BULLET_ENEMY);
    CollideLawfully(s4, BULLET_ENEMY);
    BulletsFlyLawfully(s5);
    ClockBefore(g, input, k);
    EnemiesMarchLawfully(Fly(s5, Bullet), input.enemyShoots, k);
  }

  lemma ClockBefore(g: Game, input: Input, k: nat)
    requires Patrol.Clock(g, k)
    ensures Patrol.Clock(Fly(Collide(Opening(g, input), BULLET_ENEMY), Bullet), k)
  {
    hide Opening, Collide, Fly, Update;
    Patrol.OthersKeepClock(g, input);
  }

  lemma LastStages(g: Game, input: Input)
    requires Sound(g)
    ensures var s6 := Fly(Collide(Opening(g, input), BULLET_ENEMY), Bullet);
            var s7 := MoveEnemies(s6, input.enemyTick, input.enemyShoots);
            var s8, s9, s10 := BeforeShotsFly(g, input), Middle(g, input), Collide(Middle(g, input), BULLET_BOSS);
            var s11, s12 := MoveBoss(s10, input), Update(g, input);
            && FirstPairIsStruck(s7, s8, EnemyBullet, Player, 30_000_000, 50_000_000)
            && ShotsFly(s8, s9)
            && FirstPairIsStruck(s9, s10, Bullet, Boss, 50_000_000, 50_000_000)
            && (if input.bossTick then BossesMove(s10, s11, input.bossHeading, input.bossShoots) else s11 == s10)
            && WinIsTold(s11, s12)
  {
    hide FirstPairIsStruck, ShotsFly, BossesMove, WinIsTold, Opening, Collide, Fly, MoveEnemies, BossTurns, CheckWin;
    hide Sound, IdsOk;
    StagesSound(g, input);
    var s7 := MoveEnemies(Fly(Collide(Opening(g, input), BULLET_ENEMY), Bullet), input.enemyTick, input.enemyShoots);
    var s8, s9 := BeforeShotsFly(g, input), Middle(g, input);
    CollideLawfully(s7, SHOT_PLAYER);
    ShotsFlyLawfully(s8);
    CollideLawfully(s9, BULLET_BOSS);
    BossesMoveLawfully(Collide(s9, BULLET_BOSS), input);
    WinIsToldLawfully(MoveBoss(Collide(s9, BULLET_BOSS), input));
  }

  /** The states an update goes through. */
  function CourseOf(g: Game, input: Input): Course {
    var joined, struck := Joined(g, input), Collide(Opening(g, input), BULLET_ENEMY);
    var flown, landed := Fly(struck, Bullet), Middle(g, input);
    var wounded := Collide(landed, BULLET_BOSS);
    Course(Begin(g), joined, ProcessActions(joined), Checked(g, input), Opening(g, input),
           struck, flown, MoveEnemies(flown, input.enemyTick, input.enemyShoots), BeforeShotsFly(g, input), landed,
           wounded, MoveBoss(wounded, input), Update(g, input))
  }

  /** An update does, stage after stage, exactly what the reference says. */
  lemma UpdateIsAccounted(g: Game, input: Input, k: nat)
    requires Sound(g) && Waiting(g.actions)
    requires g.direction == (k / 13) % 4 && g.distance == 2_000_000 * (k % 13)
    ensures var c := CourseOf(g, input);
            Account(c, input, k) && c.begun == g.(frame := []) && c.done == Update(g, input)
  {
    hide PlayersJoin, ActionsAct, LeaversGo, HostilesCome, FirstPairIsStruck, BulletsFly, EnemiesMarch, ShotsFly;
    hide BossesMove, WinIsTold, Opening, Collide, Fly, MoveEnemies, MoveBoss, Update, Sound, Waiting, Joined, Checked;
    hide ProcessActions, Unknown;
    HeadingIs(k);
    FirstStages(g, input);
    MiddleStages(g, input, k);
    LastStages(g, input);
  }
}

/** How a client turns the packets of one frame into sprites: three passes over
    the frame (creations, deletions, moves), and what they amount to. */
module Playback {
  import opened Options
  import opened Protocol

  /** The client's textures. */
  datatype SpriteType =
    | BallSprite | EnemySprite | BossSprite | PlayerSprite | BulletSprite | BackgroundSprite | EnemyBulletSprite
    | StartButtonSprite

  datatype Sprite = Sprite(id: int, x: int, y: int, look: SpriteType)

  /** `actionToSpriteType`, the client's own table. */
  function ActionToSpriteType(action: int): (t: Option<SpriteType>)
    ensures t.Some? <==> 21 <= action <= 27
  {
    match action
    case 21 => Some(BallSprite)
    case 22 => Some(EnemySprite)
    case 23 => Some(BossSprite)
    case 24 => Some(PlayerSprite)
    case 25 => Some(BulletSprite)
    case 26 => Some(BackgroundSprite)
    case 27 => Some(EnemyBulletSprite)
    case _ => None
  }

  /** The actions the client has a texture for. */
  predicate IsCreate(action: int) { ActionToSpriteType(action).Some? }

  function NewSprite(p: Packet): Sprite
    requires IsCreate(p.action)
  {
    Sprite(p.id, p.x, p.y, ActionToSpriteType(p.action).value)
  }

  /** `find_if` on the identifier: the first index, or the length. */
  function Find(ss: seq<Sprite>, id: int): (i: nat)
    ensures i <= |ss|
    ensures i < |ss| ==> ss[i].id == id
    ensures forall j :: 0 <= j < i ==> ss[j].id != id
  {
    if ss == [] || ss[0].id == id then 0 else 1 + Find(ss[1..], id)
  }

  function Lookup(ss: seq<Sprite>, id: int): Option<Sprite> {
    var i := Find(ss, id);
    if i == |ss| then None else Some(ss[i])
  }

  function Without(ss: seq<Sprite>, id: int): seq<Sprite> {
    if ss == [] then []
    else (if ss[0].id == id then [] else [ss[0]]) + Without(ss[1..], id)
  }

  function CreateOne(ss: seq<Sprite>, p: Packet): seq<Sprite> {
    if IsCreate(p.action) && Lookup(ss, p.id).None? then ss + [NewSprite(p)] else ss
  }

  function DeleteOne(ss: seq<Sprite>, p: Packet): seq<Sprite> {
    if p.action == DELETE then Without(ss, p.id) else ss
  }

  function MoveOne(ss: seq<Sprite>, p: Packet): seq<Sprite> {
    var i := Find(ss, p.id);
    if p.action == CHANGE && i < |ss| then ss[i := ss[i].(x := p.x, y := p.y)] else ss
  }

  function CreateAll(ss: seq<Sprite>, ps: seq<Packet>): seq<Sprite> {
    if ps == [] then ss else CreateOne(CreateAll(ss, ps[..|ps| - 1]), ps[|ps| - 1])
  }

  function DeleteAll(ss: seq<Sprite>, ps: seq<Packet>): seq<Sprite> {
    if ps == [] then ss else DeleteOne(DeleteAll(ss, ps[..|ps| - 1]), ps[|ps| - 1])
  }

  function MoveAll(ss: seq<Sprite>, ps: seq<Packet>): seq<Sprite> {
    if ps == [] then ss else MoveOne(MoveAll(ss, ps[..|ps| - 1]), ps[|ps| - 1])
  }

  /** The playback of one frame: all creations, then all deletions, then all moves. */
  function Play(ss: seq<Sprite>, ps: seq<Packet>): seq<Sprite> {
    MoveAll(DeleteAll(CreateAll(ss, ps), ps), ps)
  }

  /** The reference meaning of a frame: its packets applied one by one. */
  function ApplyInOrder(ss: seq<Sprite>, ps: seq<Packet>): seq<Sprite> {
    if ps == [] then ss
    else
      var p := ps[|ps| - 1];
      MoveOne(DeleteOne(CreateOne(ApplyInOrder(ss, ps[..|ps| - 1]), p), p), p)
  }

  // ----- The sprites by identifier -----

  lemma {:induction false} FindAppend(ss: seq<Sprite>, ts: seq<Sprite>, id: int)
    ensures Find(ss + ts, id) == if Find(ss, id) < |ss| then Find(ss, id) else |ss| + Find(ts, id)
  {
    if ss == [] {
      assert ss + ts == ts;
    } else {
      assert (ss + ts)[1..] == ss[1..] + ts;
      FindAppend(ss[1..], ts, id);
    }
  }

  lemma LookupCreateOne(ss: seq<Sprite>, p: Packet, id: int)
    ensures Lookup(CreateOne(ss, p), id)
            == if Lookup(ss, id).None? && IsCreate(p.action) && p.id == id
               then Some(NewSprite(p)) else Lookup(ss, id)
  {
    if IsCreate(p.action) { FindAppend(ss, [NewSprite(p)], id); }
  }

  lemma {:induction false} LookupWithout(ss: seq<Sprite>, gone: int, id: int)
    ensures Lookup(Without(ss, gone), id) == if id == gone then None else Lookup(ss, id)
  {
    if ss != [] {
      LookupWithout(ss[1..], gone, id);
      var head := if ss[0].id == gone then [] else [ss[0]];
      FindAppend(head, Without(ss[1..], gone), id);
    }
  }

  lemma LookupMoveOne(ss: seq<Sprite>, p: Packet, id: int)
    ensures Lookup(MoveOne(ss, p), id)
            == match Lookup(ss, id)
               case None => None
               case Some(s) => Some(if p.action == CHANGE && p.id == id then s.(x := p.x, y := p.y) else s)
  {
    var ts := MoveOne(ss, p);
    assert |ts| == |ss| && forall i :: 0 <= i < |ss| ==> ts[i].id == ss[i].id;
    SameFind(ss, ts, id);
  }

  lemma {:induction false} SameFind(ss: seq<Sprite>, ts: seq<Sprite>, id: int)
    requires |ts| == |ss| && forall i :: 0 <= i < |ss| ==> ts[i].id == ss[i].id
    ensures Find(ts, id) == Find(ss, id)
  {
    var i, j := Find(ss, id), Find(ts, id);
    assert i < |ss| ==> ts[i].id == id;
    assert j < |ss| ==> ss[j].id == id;
  }

  /** The first creation of an identifier in a frame. */
  function FirstCreate(ps: seq<Packet>, id: int): (r: Option<Packet>)
    ensures r.Some? ==> IsCreate(r.value.action) && r.value.id == id
  {
    if ps == [] then None
    else
      var p := ps[|ps| - 1];
      var before := FirstCreate(ps[..|ps| - 1], id);
      if before.None? && IsCreate(p.action) && p.id == id then Some(p) else before
  }

  predicate HasDelete(ps: seq<Packet>, id: int) {
    ps != [] && (HasDelete(ps[..|ps| - 1], id) || (ps[|ps| - 1].action == DELETE && ps[|ps| - 1].id == id))
  }

  /** The last move of an identifier in a frame. */
  function LastMove(ps: seq<Packet>, id: int): Option<Packet> {
    if ps == [] then None
    else
      var p := ps[|ps| - 1];
      if p.action == CHANGE && p.id == id then Some(p) else LastMove(ps[..|ps| - 1], id)
  }

  /** No packet creates an identifier that an earlier one deletes or moves. */
  predicate Orderly(ps: seq<Packet>) {
    ps == [] ||
    (var front, p := ps[..|ps| - 1], ps[|ps| - 1];
     Orderly(front) && (IsCreate(p.action) ==> !HasDelete(front, p.id) && LastMove(front, p.id) == None))
  }

  lemma {:induction false} LookupCreateAll(ss: seq<Sprite>, ps: seq<Packet>, id: int)
    ensures Lookup(CreateAll(ss, ps), id)
            == if Lookup(ss, id).Some? then Lookup(ss, id)
               else match FirstCreate(ps, id)
                    case None => None
                    case Some(p) => Some(NewSprite(p))
  {
    if ps != [] {
      LookupCreateAll(ss, ps[..|ps| - 1], id);
      LookupCreateOne(CreateAll(ss, ps[..|ps| - 1]), ps[|ps| - 1], id);
    }
  }

  lemma {:induction false} LookupDeleteAll(ss: seq<Sprite>, ps: seq<Packet>, id: int)
    ensures Lookup(DeleteAll(ss, ps), id) == if HasDelete(ps, id) then None else Lookup(ss, id)
  {
    if ps != [] {
      LookupDeleteAll(ss, ps[..|ps| - 1], id);
      LookupWithout(DeleteAll(ss, ps[..|ps| - 1]), ps[|ps| - 1].id, id);
    }
  }

  lemma {:induction false} LookupMoveAll(ss: seq<Sprite>, ps: seq<Packet>, id: int)
    ensures Lookup(MoveAll(ss, ps), id)
            == match Lookup(ss, id)
               case None => None
               case Some(s) => Some(match LastMove(ps, id)
                                    case None => s
                                    case Some(p) => s.(x := p.x, y := p.y))
  {
    if ps != [] {
      LookupMoveAll(ss, ps[..|ps| - 1], id);
      LookupMoveOne(MoveAll(ss, ps[..|ps| - 1]), ps[|ps| - 1], id);
    }
  }

  /** What a client shows for an identifier after playing a frame. */
  lemma LookupPlay(ss: seq<Sprite>, ps: seq<Packet>, id: int)
    ensures Lookup(Play(ss, ps), id)
            == var created := if Lookup(ss, id).Some? then Lookup(ss, id)
                              else match FirstCreate(ps, id)
                                   case None => None
                                   case Some(p) => Some(NewSprite(p));
               if HasDelete(ps, id) || created.None? then None
               else match LastMove(ps, id)
                    case None => created
                    case Some(p) => Some(created.value.(x := p.x, y := p.y))
  {
    var ts := CreateAll(ss, ps);
    LookupCreateAll(ss, ps, id);
    LookupDeleteAll(ts, ps, id);
    LookupMoveAll(DeleteAll(ts, ps), ps, id);
  }

  // ----- Reordering -----

  lemma {:induction false} WithoutAppend(ss: seq<Sprite>, ts: seq<Sprite>, id: int)
    ensures Without(ss + ts, id) == Without(ss, id) + Without(ts, id)
  {
    if ss == [] {
      assert ss + ts == ts;
    } else {
      assert (ss + ts)[1..] == ss[1..] + ts;
      WithoutAppend(ss[1..], ts, id);
    }
  }

  lemma {:induction false} WithoutAbsent(ss: seq<Sprite>, id: int)
    requires forall i :: 0 <= i < |ss| ==> ss[i].id != id
    ensures Without(ss, id) == ss
  {
    if ss != [] { WithoutAbsent(ss[1..], id); }
  }

  lemma CreateThenDeleteOne(ss: seq<Sprite>, c: Packet, d: Packet)
    requires IsCreate(c.action) && (d.action == DELETE ==> d.id != c.id)
    ensures DeleteOne(CreateOne(ss, c), d) == CreateOne(DeleteOne(ss, d), c)
  {
    if d.action == DELETE {
      LookupWithout(ss, d.id, c.id);
      var added := [NewSprite(c)];
      WithoutAppend(ss, added, d.id);
      WithoutAbsent(added, d.id);
    }
  }

  lemma CreateThenMoveOne(ss: seq<Sprite>, c: Packet, m: Packet)
    requires IsCreate(c.action) && (m.action == CHANGE ==> m.id != c.id)
    ensures MoveOne(CreateOne(ss, c), m) == CreateOne(MoveOne(ss, m), c)
  {
    if m.action == CHANGE {
      LookupMoveOne(ss, m, c.id);
      FindAppend(ss, [NewSprite(c)], m.id);
    }
  }

  lemma {:induction false} CreateThenTouchAll(ss: seq<Sprite>, c: Packet, ps: seq<Packet>)
    requires IsCreate(c.action) && !HasDelete(ps, c.id) && LastMove(ps, c.id) == None
    ensures DeleteAll(CreateOne(ss, c), ps) == CreateOne(DeleteAll(ss, ps), c)
    ensures MoveAll(CreateOne(ss, c), ps) == CreateOne(MoveAll(ss, ps), c)
  {
    if ps != [] {
      var front, p := ps[..|ps| - 1], ps[|ps| - 1];
      CreateThenTouchAll(ss, c, front);
      CreateThenDeleteOne(DeleteAll(ss, front), c, p);
      CreateThenMoveOne(MoveAll(ss, front), c, p);
    }
  }

  lemma {:induction false} WithoutUpdateGone(ss: seq<Sprite>, i: nat, s: Sprite)
    requires i < |ss| && s.id == ss[i].id
    ensures Without(ss[i := s], s.id) == Without(ss, s.id)
  {
    if i == 0 {
      assert ss[i := s][1..] == ss[1..];
    } else {
      WithoutUpdateGone(ss[1..], i - 1, s);
      assert ss[i := s][1..] == ss[1..][i - 1 := s];
    }
  }

  lemma FindHead(ss: seq<Sprite>, id: int)
    requires ss != []
    ensures Find(ss, id) == if ss[0].id == id then 0 else 1 + Find(ss[1..], id)
  {
  }

  lemma WithoutHead(ss: seq<Sprite>, id: int)
    requires ss != []
    ensures Without(ss, id) == if ss[0].id == id then Without(ss[1..], id) else [ss[0]] + Without(ss[1..], id)
  {
    assert [] + Without(ss[1..], id) == Without(ss[1..], id);
  }

  lemma {:induction false} WithoutUpdateKept(ss: seq<Sprite>, i: nat, s: Sprite, id: int)
    requires i < |ss| && s.id == ss[i].id && s.id != id && Find(ss, s.id) == i
    ensures var w := Without(ss, id);
            Find(w, s.id) < |w| && Without(ss[i := s], id) == w[Find(w, s.id) := s]
  {
    hide Find, Without;
    FindHead(ss, s.id);
    WithoutHead(ss, id);
    WithoutHead(ss[i := s], id);
    if i == 0 {
      assert ss[i := s][1..] == ss[1..];
      FindHead(Without(ss, id), s.id);
    } else {
      WithoutUpdateKept(ss[1..], i - 1, s, id);
      assert ss[i := s][1..] == ss[1..][i - 1 := s];
      if ss[0].id != id {
        FindHead(Without(ss, id), s.id);
        assert Without(ss, id)[1..] == Without(ss[1..], id);
      }
    }
  }

  lemma MoveThenDeleteOne(ss: seq<Sprite>, m: Packet, id: int)
    ensures MoveOne(Without(ss, id), m) == Without(MoveOne(ss, m), id)
  {
    var i := Find(ss, m.id);
    LookupWithout(ss, id, m.id);
    if m.action == CHANGE && i < |ss| {
      var s := ss[i].(x := m.x, y := m.y);
      if m.id == id {
        WithoutUpdateGone(ss, i, s);
      } else {
        WithoutUpdateKept(ss, i, s, id);
        var w := Without(ss, id);
        assert Lookup(w, m.id) == Some(ss[i]);
      }
    }
  }

  lemma {:induction false} MoveAllThenDeleteOne(ss: seq<Sprite>, ps: seq<Packet>, id: int)
    ensures MoveAll(Without(ss, id), ps) == Without(MoveAll(ss, ps), id)
  {
    if ps != [] {
      MoveAllThenDeleteOne(ss, ps[..|ps| - 1], id);
      MoveThenDeleteOne(MoveAll(ss, ps[..|ps| - 1]), ps[|ps| - 1], id);
    }
  }

  /** Playing an orderly frame in three passes gives the very sprites, in the
      very order, that applying its packets one by one gives. */
  lemma {:induction false} ReorderingPreservesMeaning(ss: seq<Sprite>, ps: seq<Packet>)
    requires Orderly(ps)
    ensures Play(ss, ps) == ApplyInOrder(ss, ps)
  {
    if ps != [] {
      var front, p := ps[..|ps| - 1], ps[|ps| - 1];
      ReorderingPreservesMeaning(ss, front);
      var created := CreateAll(ss, front);
      if IsCreate(p.action) {
        CreateThenTouchAll(created, p, front);
        CreateThenTouchAll(DeleteAll(created, front), p, front);
      } else if p.action == DELETE {
        MoveAllThenDeleteOne(DeleteAll(created, front), front, p.id);
      }
    }
  }

  // ----- One sprite for each identifier -----

  ghost predicate OnceEach(ss: seq<Sprite>) { forall i, j :: 0 <= i < j < |ss| ==> ss[i].id != ss[j].id }

  lemma CreateOneOnce(ss: seq<Sprite>, p: Packet)
    requires OnceEach(ss)
    ensures OnceEach(CreateOne(ss, p))
  {
    hide Find;
  }

  lemma {:induction false} WithoutOnce(ss: seq<Sprite>, id: int)
    requires OnceEach(ss)
    ensures OnceEach(Without(ss, id)) && forall s :: s in Without(ss, id) ==> s in ss
  {
    if ss != [] {
      var rest := Without(ss[1..], id);
      WithoutOnce(ss[1..], id);
      forall j | 0 <= j < |rest| ensures rest[j].id != ss[0].id {
        assert rest[j] in rest;
        var k :| 0 <= k < |ss[1..]| && ss[1..][k] == rest[j];
        assert ss[k + 1] == rest[j];
      }
    }
  }

  lemma MoveOneOnce(ss: seq<Sprite>, p: Packet)
    requires OnceEach(ss)
    ensures OnceEach(MoveOne(ss, p))
  {
    hide Find;
  }

  lemma {:induction false} PassesOnce(ss: seq<Sprite>, ps: seq<Packet>)
    requires OnceEach(ss)
    ensures OnceEach(CreateAll(ss, ps)) && OnceEach(DeleteAll(ss, ps)) && OnceEach(MoveAll(ss, ps))
  {
    hide OnceEach, CreateOne, DeleteOne, MoveOne;
    if ps != [] {
      var front, p := ps[..|ps| - 1], ps[|ps| - 1];
      PassesOnce(ss, front);
      CreateOneOnce(CreateAll(ss, front), p);
      DeleteOneOnce(DeleteAll(ss, front), p);
      MoveOneOnce(MoveAll(ss, front), p);
    }
  }

  lemma DeleteOneOnce(ss: seq<Sprite>, p: Packet)
    requires OnceEach(ss)
    ensures OnceEach(DeleteOne(ss, p))
  {
    hide OnceEach;
    WithoutOnce(ss, p.id);
  }

  /** Playback shows no identifier twice. */
  lemma PlayShowsOnce(ss: seq<Sprite>, ps: seq<Packet>)
    requires OnceEach(ss)
    ensures OnceEach(Play(ss, ps))
  {
    hide OnceEach, CreateAll, DeleteAll, MoveAll;
    PassesOnce(ss, ps);
    PassesOnce(CreateAll(ss, ps), ps);
    PassesOnce(DeleteAll(CreateAll(ss, ps), ps), ps);
  }
}

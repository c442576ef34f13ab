/** From the server's entities to a client's sprites. */
module Replication {
  import opened Options
  import opened Text
  import opened Protocol
  import opened Playback
  import opened World
  import opened Rules
  import opened Updates

  type Cache = map<int, (int, int)>

  function Position(e: Entity): (int, int) { (e.x, e.y) }

  /** The kinds `sendAllEntitiesToNewClients` has a packet type for. */
  predicate Dumped(kind: Kind) { kind == Player || kind == Enemy || kind == Boss || kind == Bullet }

  /** The creations sent for a newcomer, by identifier. */
  function Dump(es: map<int, Entity>, n: nat): seq<Event> {
    if n == 0 then []
    else
      Dump(es, n - 1)
      + if n - 1 in es && Dumped(es[n - 1].kind)
        then [Create(es[n - 1].kind, n - 1, es[n - 1].x, es[n - 1].y)] else []
  }

  /** `hasPositionChanged`, before it updates the cache. */
  predicate Stale(cache: Cache, id: int, position: (int, int)) {
    id !in cache || cache[id] != position
  }

  /** The position changes sent with a frame, by identifier. */
  function Changes(es: map<int, Entity>, cache: Cache, n: nat): seq<Event> {
    if n == 0 then []
    else
      Changes(es, cache, n - 1)
      + if n - 1 in es && Stale(cache, n - 1, Position(es[n - 1]))
        then [Change(n - 1, es[n - 1].x, es[n - 1].y)] else []
  }

  /** The cache once the positions below `n` are recorded. */
  function Refreshed(es: map<int, Entity>, cache: Cache, n: nat): Cache {
    map id | id in cache.Keys + es.Keys && (id in cache || id < n) ::
      if id in es && id < n then Position(es[id]) else cache[id]
  }

  /** Everything a sent frame carries: the story of the update, for a newcomer
      the full dump, and the changes. */
  function Sent(g: Game, cache: Cache, newcomer: bool): seq<Event> {
    g.frame + (if newcomer then Dump(g.entities, g.nextId) else []) + Changes(g.entities, cache, g.nextId)
  }

  // ----- Frames as sets of creations, deletions and changes -----

  function FirstCreation(es: seq<Event>, id: int): (r: Option<Event>)
    ensures r.Some? ==> r.value.Create? && r.value.id == id
  {
    if es == [] then None
    else
      var e := es[|es| - 1];
      var before := FirstCreation(es[..|es| - 1], id);
      if before.None? && e.Create? && e.id == id then Some(e) else before
  }

  function LastChange(es: seq<Event>, id: int): (r: Option<Event>)
    ensures r.Some? ==> r.value.Change? && r.value.id == id
  {
    if es == [] then None
    else
      var e := es[|es| - 1];
      if e.Change? && e.id == id then Some(e) else LastChange(es[..|es| - 1], id)
  }

  ghost predicate Fits(es: seq<Event>) {
    forall i :: 0 <= i < |es| ==> Int32(IdField(es[i]))
  }

  lemma FitsFront(es: seq<Event>)
    requires Fits(es) && es != []
    ensures var front, e := es[..|es| - 1], es[|es| - 1];
            Fits(front) && Meanings(es) == if e == Important then Meanings(front) else Meanings(front) + [Meaning(e)]
  {
  }

  lemma EmptySays(id: int)
    ensures Meanings([]) == [] && !HasDelete([], id) && FirstCreate([], id) == None && LastMove([], id) == None
  {
  }

  lemma PushSays(ps: seq<Packet>, p: Packet, id: int)
    ensures HasDelete(ps + [p], id) <==> HasDelete(ps, id) || (p.action == DELETE && p.id == id)
    ensures FirstCreate(ps + [p], id)
            == if FirstCreate(ps, id).None? && IsCreate(p.action) && p.id == id then Some(p) else FirstCreate(ps, id)
    ensures LastMove(ps + [p], id) == if p.action == CHANGE && p.id == id then Some(p) else LastMove(ps, id)
  {
    assert (ps + [p])[..|ps|] == ps;
  }

  /** The packets of a frame say about an entity what its events say. */
  lemma {:induction false} MeaningsSay(es: seq<Event>, id: int)
    requires Fits(es)
    ensures HasDelete(Meanings(es), id) <==> id in Deleted(es)
    ensures match FirstCreation(es, id)
            case None => id >= 0 ==> FirstCreate(Meanings(es), id) == None
            case Some(e) => e.Create? && e.id == id && (id >= 0 ==> FirstCreate(Meanings(es), id) == Some(Meaning(e)))
    ensures match LastChange(es, id)
            case None => LastMove(Meanings(es), id) == None
            case Some(e) => e.Change? && e.id == id && LastMove(Meanings(es), id) == Some(Meaning(e))
  {
    if es != [] {
      hide Meanings, HasDelete, FirstCreate, LastMove, Fits;
      var front, e := es[..|es| - 1], es[|es| - 1];
      FitsFront(es);
      MeaningsSay(front, id);
      if e != Important {
        PushSays(Meanings(front), Meaning(e), id);
      }
    } else {
      EmptySays(id);
    }
  }

  lemma {:induction false} AppendSays(a: seq<Event>, b: seq<Event>, id: int)
    ensures Deleted(a + b) == Deleted(a) + Deleted(b)
    ensures FirstCreation(a + b, id)
            == if FirstCreation(a, id).Some? then FirstCreation(a, id) else FirstCreation(b, id)
    ensures LastChange(a + b, id) == if LastChange(b, id).Some? then LastChange(b, id) else LastChange(a, id)
  {
    if b == [] {
      assert a + b == a;
    } else {
      assert (a + b)[..|a + b| - 1] == a + b[..|b| - 1];
      AppendSays(a, b[..|b| - 1], id);
    }
  }

  lemma {:induction false} DumpSays(es: map<int, Entity>, n: nat, id: int)
    ensures Deleted(Dump(es, n)) == {} && LastChange(Dump(es, n), id) == None
    ensures FirstCreation(Dump(es, n), id)
            == if 0 <= id < n && id in es && Dumped(es[id].kind)
               then Some(Create(es[id].kind, id, es[id].x, es[id].y)) else None
    ensures n <= INT_MAX + 1 ==> Fits(Dump(es, n))
  {
    if n > 0 {
      DumpSays(es, n - 1, id);
      if n - 1 in es && Dumped(es[n - 1].kind) {
        assert Dump(es, n)[..|Dump(es, n)| - 1] == Dump(es, n - 1);
      } else {
        assert Dump(es, n) == Dump(es, n - 1);
      }
    }
  }

  lemma {:induction false} ChangesSay(es: map<int, Entity>, cache: Cache, n: nat, id: int)
    ensures Deleted(Changes(es, cache, n)) == {} && FirstCreation(Changes(es, cache, n), id) == None
    ensures LastChange(Changes(es, cache, n), id)
            == if 0 <= id < n && id in es && Stale(cache, id, Position(es[id]))
               then Some(Change(id, es[id].x, es[id].y)) else None
    ensures n <= INT_MAX + 1 ==> Fits(Changes(es, cache, n))
  {
    if n > 0 {
      ChangesSay(es, cache, n - 1, id);
      if n - 1 in es && Stale(cache, n - 1, Position(es[n - 1])) {
        assert Changes(es, cache, n)[..|Changes(es, cache, n)| - 1] == Changes(es, cache, n - 1);
      } else {
        assert Changes(es, cache, n) == Changes(es, cache, n - 1);
      }
    }
  }

  /** A story creates what `Created` collects and changes no position. */
  lemma {:induction false} StorySays(es: seq<Event>, first: nat, id: int)
    requires Story(es, first)
    ensures LastChange(es, id) == None
    ensures FirstCreation(es, id).Some? <==> id in Created(es)
    ensures FirstCreation(es, id).Some? ==>
              exists i :: 0 <= i < |es| && es[i] == FirstCreation(es, id).value && es[i].Create? && es[i].id == id
    ensures first + Creations(es) <= INT_MAX + 1 ==> Fits(es)
  {
    if es != [] {
      StorySays(es[..|es| - 1], first, id);
    }
  }

  lemma SinceStory(g0: Game, g: Game)
    requires Since(g0, g)
    ensures Story(g.frame, g0.nextId) && g.nextId == g0.nextId + Creations(g.frame)
  {
  }

  lemma NothingSaid(id: int)
    ensures Deleted([]) == {} && FirstCreation([], id) == None && LastChange([], id) == None && Fits([])
  {
  }

  lemma FitsAppend(a: seq<Event>, b: seq<Event>)
    ensures Fits(a) && Fits(b) ==> Fits(a + b)
  {
  }

  /** What a sent frame says about one entity. */
  lemma SentSays(g0: Game, g: Game, cache: Cache, newcomer: bool, id: nat)
    requires Since(g0, g)
    ensures var es := Sent(g, cache, newcomer);
            && (id in Deleted(es) <==> id in Deleted(g.frame))
            && FirstCreation(es, id) == (if FirstCreation(g.frame, id).Some? then FirstCreation(g.frame, id)
                                         else if newcomer then FirstCreation(Dump(g.entities, g.nextId), id) else None)
            && LastChange(es, id) == LastChange(Changes(g.entities, cache, g.nextId), id)
    ensures g.nextId <= INT_MAX + 1 ==> Fits(Sent(g, cache, newcomer))
  {
    hide Since, Story, Fits, FirstCreation, LastChange, Deleted, Dump, Changes;
    SinceStory(g0, g);
    NothingSaid(id);
    var dump := if newcomer then Dump(g.entities, g.nextId) else [];
    var changes := Changes(g.entities, cache, g.nextId);
    StorySays(g.frame, g0.nextId, id);
    DumpSays(g.entities, g.nextId, id);
    ChangesSay(g.entities, cache, g.nextId, id);
    AppendSays(g.frame, dump, id);
    AppendSays(g.frame + dump, changes, id);
    FitsAppend(g.frame, dump);
    FitsAppend(g.frame + dump, changes);
  }

  // ----- The order of a sent frame -----

  /** No creation, of an entity or of the background, comes after a deletion or
      a change of its identifier. */
  predicate Chronological(es: seq<Event>) {
    es == [] ||
    (var front, e := es[..|es| - 1], es[|es| - 1];
     Chronological(front)
     && (e.Create? || e == Background ==> IdField(e) !in Deleted(front) && LastChange(front, IdField(e)) == None))
  }

  lemma OrderlyPush(ps: seq<Packet>, p: Packet)
    requires Orderly(ps)
    requires IsCreate(p.action) ==> !HasDelete(ps, p.id) && LastMove(ps, p.id) == None
    ensures Orderly(ps + [p])
  {
    assert (ps + [p])[..|ps + [p]| - 1] == ps;
  }

  lemma {:induction false} ChronologicalIsOrderly(es: seq<Event>)
    requires Fits(es) && Chronological(es)
    ensures Orderly(Meanings(es))
  {
    hide Orderly, HasDelete, LastMove;
    if es == [] {
      OrderlyNothing();
    } else {
      var front, e := es[..|es| - 1], es[|es| - 1];
      ChronologicalIsOrderly(front);
      MeaningsSay(front, IdField(e));
      if e != Important {
        OrderlyPush(Meanings(front), Meaning(e));
      } else {
        assert Meanings(es) == Meanings(front);
      }
    }
  }

  lemma OrderlyNothing()
    ensures Orderly([])
  {
  }

  lemma {:induction false} StoryIsChronological(es: seq<Event>, first: nat)
    requires Story(es, first)
    ensures Chronological(es)
  {
    if es != [] {
      var front := es[..|es| - 1];
      StoryIsChronological(front, first);
      StoryRanges(front, first);
      StorySays(front, first, IdField(es[|es| - 1]));
    }
  }

  lemma PushChronological(es: seq<Event>, e: Event)
    requires Chronological(es)
    requires e.Create? || e == Background ==> IdField(e) !in Deleted(es) && LastChange(es, IdField(e)) == None
    ensures Chronological(es + [e])
  {
    hide Deleted, LastChange;
    assert (es + [e])[..|es + [e]| - 1] == es;
  }

  lemma {:induction false} DumpIsChronological(es: seq<Event>, live: map<int, Entity>, n: nat)
    requires Chronological(es) && live.Keys !! Deleted(es)
    requires forall id :: id in live ==> LastChange(es, id) == None
    ensures Chronological(es + Dump(live, n))
  {
    hide Chronological, Deleted, LastChange, FirstCreation;
    if n == 0 {
      assert es + Dump(live, n) == es;
    } else {
      DumpIsChronological(es, live, n - 1);
      var before := es + Dump(live, n - 1);
      if n - 1 in live && Dumped(live[n - 1].kind) {
        var e := Create(live[n - 1].kind, n - 1, live[n - 1].x, live[n - 1].y);
        assert es + Dump(live, n) == before + [e];
        DumpSays(live, n - 1, n - 1);
        AppendSays(es, Dump(live, n - 1), n - 1);
        assert n - 1 in live.Keys;
        PushChronological(before, e);
      } else {
        assert es + Dump(live, n) == before;
      }
    }
  }

  lemma {:induction false} ChangesAreChronological(es: seq<Event>, live: map<int, Entity>, cache: Cache, n: nat)
    requires Chronological(es)
    ensures Chronological(es + Changes(live, cache, n))
  {
    hide Chronological, Deleted, LastChange;
    if n == 0 {
      assert es + Changes(live, cache, n) == es;
    } else {
      ChangesAreChronological(es, live, cache, n - 1);
      var before := es + Changes(live, cache, n - 1);
      if n - 1 in live && Stale(cache, n - 1, Position(live[n - 1])) {
        var e := Change(n - 1, live[n - 1].x, live[n - 1].y);
        assert es + Changes(live, cache, n) == before + [e];
        PushChronological(before, e);
      } else {
        assert es + Changes(live, cache, n) == before;
      }
    }
  }

  /** Every frame the server can send, with or without the dump, plays in three
      passes as it reads in order. */
  lemma SentFramePlaysInOrder(ss: seq<Sprite>, g0: Game, g: Game, cache: Cache, newcomer: bool)
    requires Since(g0, g) && g.nextId <= INT_MAX + 1
    ensures var ps := Meanings(Sent(g, cache, newcomer)); Play(ss, ps) == ApplyInOrder(ss, ps)
  {
    hide Play, Meanings, Chronological, Changes, Dump;
    var dump := if newcomer then Dump(g.entities, g.nextId) else [];
    StoryIsChronological(g.frame, g0.nextId);
    forall id | id in g.entities ensures LastChange(g.frame, id) == None {
      StorySays(g.frame, g0.nextId, id);
    }
    DumpIsChronological(g.frame, g.entities, g.nextId);
    assert g.frame + [] == g.frame;
    assert Chronological(g.frame + dump);
    ChangesAreChronological(g.frame + dump, g.entities, cache, g.nextId);
    SentSays(g0, g, cache, newcomer, 0);
    ChronologicalIsOrderly(Sent(g, cache, newcomer));
    ReorderingPreservesMeaning(ss, Meanings(Sent(g, cache, newcomer)));
  }

  // ----- Being in step -----

  /** The texture an entity of a kind should have. */
  function LookOf(kind: Kind): SpriteType {
    match kind
    case Player => PlayerSprite
    case Enemy => EnemySprite
    case Bullet => BulletSprite
    case Boss => BossSprite
    case EnemyBullet => EnemyBulletSprite
    case Ball => BallSprite
  }

  /** The type the server sends and the client's own table agree on the texture. */
  lemma LooksAgree(kind: Kind)
    ensures ActionToSpriteType(CreateCode(kind)) == Some(LookOf(kind))
  {
  }

  /** The sprite a client should show for an entity. */
  function Shown(es: map<int, Entity>, missing: set<int>, id: int): Option<Sprite> {
    if id in es && id !in missing then Some(Sprite(id, es[id].x, es[id].y, LookOf(es[id].kind))) else None
  }

  /** The sprites with an entity's identifier are the live entities, each at its
      position and with its look, but for the missing ones. */
  ghost predicate InStep(ss: seq<Sprite>, g: Game, missing: set<int>) {
    && missing <= g.entities.Keys
    && forall id: nat :: Lookup(ss, id) == Shown(g.entities, missing, id)
  }

  /** The delta cache holds the position of every live entity, and no future identifier. */
  ghost predicate CacheOk(g: Game, cache: Cache) {
    && (forall id :: id in g.entities ==> id in cache && cache[id] == Position(g.entities[id]))
    && (forall id :: id in cache ==> id < g.nextId)
  }

  /** The missing entities after a frame: those still live that the dump does not carry. */
  function StillMissing(g: Game, missing: set<int>, newcomer: bool): set<int> {
    set id | id in missing && id in g.entities && !(newcomer && Dumped(g.entities[id].kind))
  }

  lemma RefreshedOk(g: Game, cache: Cache)
    requires IdsOk(g) && forall id :: id in cache ==> id < g.nextId
    ensures CacheOk(g, Refreshed(g.entities, cache, g.nextId))
  {
  }

  /** What a client shows for one identifier after it has played a sent frame. */
  function AfterFrame(sprite: Option<Sprite>, g: Game, cache: Cache, newcomer: bool, id: nat): Option<Sprite> {
    if id in Deleted(g.frame) then None
    else if sprite.Some? then
      Some(if id in g.entities && Stale(cache, id, Position(g.entities[id]))
           then sprite.value.(x := g.entities[id].x, y := g.entities[id].y) else sprite.value)
    else if id in g.entities && (id in Created(g.frame) || (newcomer && Dumped(g.entities[id].kind)))
    then Some(Sprite(id, g.entities[id].x, g.entities[id].y, LookOf(g.entities[id].kind)))
    else None
  }

  /** What the events of a sent frame say about an identifier, read as the client reads it. */
  lemma SaidAndShown(ss: seq<Sprite>, es: seq<Event>, id: nat)
    requires Fits(es)
    ensures Lookup(Play(ss, Meanings(es)), id)
            == var created := if Lookup(ss, id).Some? then Lookup(ss, id)
                              else match FirstCreation(es, id)
                                   case Some(e) => Some(Sprite(id, e.x, e.y, LookOf(e.kind)))
                                   case None => None;
               if id in Deleted(es) || created.None? then None
               else match LastChange(es, id)
                    case Some(e) => Some(created.value.(x := e.x, y := e.y))
                    case None => created
  {
    hide Play, Meanings, Lookup, FirstCreation, LastChange, Deleted, Fits, CreateCode, LookOf;
    hide FirstCreate, LastMove, HasDelete, ActionToSpriteType;
    MeaningsSay(es, id);
    LookupPlay(ss, Meanings(es), id);
    if FirstCreation(es, id).Some? { LooksAgree(FirstCreation(es, id).value.kind); }
  }

  lemma PlaySent(ss: seq<Sprite>, g0: Game, g: Game, cache: Cache, newcomer: bool, id: nat)
    requires Since(g0, g) && IdsOk(g) && g.nextId <= INT_MAX + 1
    requires forall i :: i in cache ==> i < g0.nextId
    ensures Lookup(Play(ss, Meanings(Sent(g, cache, newcomer))), id)
            == AfterFrame(Lookup(ss, id), g, cache, newcomer, id)
  {
    hide Sent, Play, Meanings, Lookup, FirstCreation, LastChange, Dump, Changes, Fits, LookOf, Marked;
    var es := Sent(g, cache, newcomer);
    SentSays(g0, g, cache, newcomer, id);
    SaidAndShown(ss, es, id);
    StorySays(g.frame, g0.nextId, id);
    StoryRanges(g.frame, g0.nextId);
    DumpSays(g.entities, g.nextId, id);
    ChangesSay(g.entities, cache, g.nextId, id);
  }

  /** One entity, one frame. */
  lemma PlayShows(ss: seq<Sprite>, g0: Game, g: Game, cache: Cache, missing: set<int>, newcomer: bool, id: nat)
    requires Sound(g0) && Sound(g) && Since(g0, g) && Survives(g0, g, EVERY_KIND) && g.nextId <= INT_MAX + 1
    requires InStep(ss, g0, missing) && CacheOk(g0, cache)
    ensures Lookup(Play(ss, Meanings(Sent(g, cache, newcomer))), id)
            == Shown(g.entities, StillMissing(g, missing, newcomer), id)
  {
    hide Sent, Play, Meanings, Lookup, LookOf, Marked, Dumped;
    PlaySent(ss, g0, g, cache, newcomer, id);
    StoryRanges(g.frame, g0.nextId);
  }

  /** A client in step stays in step by playing the next frame, and the missing
      set only loses members. */
  lemma FrameKeepsStep(ss: seq<Sprite>, g0: Game, g: Game, cache: Cache, missing: set<int>, newcomer: bool)
    requires Sound(g0) && Sound(g) && Since(g0, g) && Survives(g0, g, EVERY_KIND) && g.nextId <= INT_MAX + 1
    requires InStep(ss, g0, missing) && CacheOk(g0, cache)
    ensures InStep(Play(ss, Meanings(Sent(g, cache, newcomer))), g, StillMissing(g, missing, newcomer))
    ensures CacheOk(g, Refreshed(g.entities, cache, g.nextId))
  {
    forall id: nat {
      PlayShows(ss, g0, g, cache, missing, newcomer, id);
    }
    RefreshedOk(g, cache);
  }

  // ----- Runs -----

  /** Between two sends: the actions that arrive, the update, the clients connected at the send. */
  datatype Turn = Turn(arrivals: seq<(int, int)>, input: Input, connected: nat)

  /** The server side of the pipeline; `newest` is the highest client count at a send so far. */
  datatype Sender = Sender(game: Game, cache: Cache, newest: nat, frameId: nat)

  function AddAll(g: Game, arrivals: seq<(int, int)>): Game {
    if arrivals == [] then g
    else
      var (player, code) := arrivals[|arrivals| - 1];
      AddAction(AddAll(g, arrivals[..|arrivals| - 1]), player, code)
  }

  function Updated(s: Sender, t: Turn): Game { Update(AddAll(s.game, t.arrivals), t.input) }

  /** The text of the frame sent in a turn; every frame is sent before the next update. */
  function Message(s: Sender, t: Turn): string {
    FrameText(s.frameId, Sent(Updated(s, t), s.cache, t.connected > s.newest))
  }

  function Next(s: Sender, t: Turn): Sender {
    var g := Updated(s, t);
    Sender(g, Refreshed(g.entities, s.cache, g.nextId),
           if t.connected > s.newest then t.connected else s.newest, s.frameId + 1)
  }

  function RunServer(s: Sender, turns: seq<Turn>): Sender {
    if turns == [] then s else Next(RunServer(s, turns[..|turns| - 1]), turns[|turns| - 1])
  }

  /** A client that gets a text and plays it. */
  function Watch(ss: seq<Sprite>, text: string): seq<Sprite> {
    if ':' !in text then ss
    else match ParseFrame(text)
         case None => ss
         case Some(f) => Play(ss, f.packets)
  }

  /** The sprites of a client that watches every frame of a run. */
  function RunClient(s: Sender, ss: seq<Sprite>, turns: seq<Turn>): seq<Sprite> {
    if turns == [] then ss
    else
      var front, t := turns[..|turns| - 1], turns[|turns| - 1];
      Watch(RunClient(s, ss, front), Message(RunServer(s, front), t))
  }

  /** Identifiers and frame numbers still fit the 32-bit `int` they are sent as. */
  ghost predicate Representable(s: Sender) {
    s.game.nextId <= INT_MAX + 1 && s.frameId <= INT_MAX + 1
  }

  ghost predicate ServerOk(s: Sender) { Sound(s.game) && CacheOk(s.game, s.cache) }

  lemma {:induction false} AddAllKeeps(g: Game, arrivals: seq<(int, int)>)
    ensures AddAll(g, arrivals) == g.(actions := AddAll(g, arrivals).actions)
  {
    if arrivals != [] { AddAllKeeps(g, arrivals[..|arrivals| - 1]); }
  }

  /** An update seen from the state before the arrivals. */
  lemma TurnStep(s: Sender, t: Turn)
    requires ServerOk(s)
    ensures var a := AddAll(s.game, t.arrivals);
            && a.entities == s.game.entities && a.nextId == s.game.nextId
            && Sound(a) && Sound(Begin(a)) && CacheOk(Begin(a), s.cache)
            && Sound(Updated(s, t)) && Since(Begin(a), Updated(s, t)) && Survives(Begin(a), Updated(s, t), EVERY_KIND)
            && s.game.nextId <= Updated(s, t).nextId
  {
    hide Update;
    AddAllKeeps(s.game, t.arrivals);
    var a := AddAll(s.game, t.arrivals);
    assert Sound(a);
    UpdateStep(a, t.input);
  }

  /** One turn: the server stays sound, and a client in step that gets the text
      and plays it is in step with the new state. */
  lemma TurnKeepsStep(s: Sender, t: Turn, ss: seq<Sprite>, missing: set<int>)
    requires ServerOk(s) && InStep(ss, s.game, missing) && Representable(Next(s, t))
    ensures InStep(Watch(ss, Message(s, t)), Next(s, t).game,
                   StillMissing(Updated(s, t), missing, t.connected > s.newest))
  {
    hide Update, Sent, FrameText, ParseFrame, Play, InStep;
    TurnStep(s, t);
    var a, g := Begin(AddAll(s.game, t.arrivals)), Updated(s, t);
    SameInStep(ss, s.game, a, missing);
    FrameKeepsStep(ss, a, g, s.cache, missing, t.connected > s.newest);
    FrameRoundTrip(s.frameId, Sent(g, s.cache, t.connected > s.newest));
  }

  lemma SameInStep(ss: seq<Sprite>, a: Game, b: Game, missing: set<int>)
    requires InStep(ss, a, missing) && a.entities == b.entities
    ensures InStep(ss, b, missing)
  {
  }

  lemma TurnKeepsServer(s: Sender, t: Turn)
    requires ServerOk(s)
    ensures ServerOk(Next(s, t)) && s.game.nextId <= Next(s, t).game.nextId
  {
    hide Update;
    TurnStep(s, t);
    RefreshedOk(Updated(s, t), s.cache);
  }

  function InitialServer(limits: Limits, connected: nat): Sender {
    Sender(InitialGame(limits), map[], connected, 0)
  }

  lemma {:induction false} RunKeepsServer(s: Sender, turns: seq<Turn>)
    requires ServerOk(s)
    ensures ServerOk(RunServer(s, turns))
    ensures RunServer(s, turns).frameId == s.frameId + |turns|
    ensures s.game.nextId <= RunServer(s, turns).game.nextId
  {
    hide Next, ServerOk;
    if turns != [] {
      var front, t := turns[..|turns| - 1], turns[|turns| - 1];
      RunKeepsServer(s, front);
      TurnKeepsServer(RunServer(s, front), t);
      NextFrameId(RunServer(s, front), t);
    }
  }

  lemma NextFrameId(s: Sender, t: Turn)
    ensures Next(s, t).frameId == s.frameId + 1
  {
  }

  /** A run after a run is one run. */
  lemma {:induction false} RunServerAppend(s: Sender, a: seq<Turn>, b: seq<Turn>)
    ensures RunServer(RunServer(s, a), b) == RunServer(s, a + b)
  {
    hide Next;
    if b == [] {
      assert a + b == a;
    } else {
      assert (a + b)[..|a + b| - 1] == a + b[..|b| - 1];
      RunServerAppend(s, a, b[..|b| - 1]);
    }
  }

  /** The missing set of a client along a run. */
  function RunMissing(s: Sender, missing: set<int>, turns: seq<Turn>): set<int> {
    if turns == [] then missing
    else
      var front, t := turns[..|turns| - 1], turns[|turns| - 1];
      var before := RunServer(s, front);
      StillMissing(Updated(before, t), RunMissing(s, missing, front), t.connected > before.newest)
  }

  /** Along every run, a client in step stays in step. */
  lemma {:induction false} RunKeepsStep(s: Sender, ss: seq<Sprite>, missing: set<int>, turns: seq<Turn>)
    requires ServerOk(s) && InStep(ss, s.game, missing) && Representable(RunServer(s, turns))
    ensures InStep(RunClient(s, ss, turns), RunServer(s, turns).game, RunMissing(s, missing, turns))
  {
    hide Next, ServerOk, InStep, Message, Watch, StillMissing, Updated;
    if turns != [] {
      var front, t := turns[..|turns| - 1], turns[|turns| - 1];
      var before := RunServer(s, front);
      RunKeepsServer(s, front);
      TurnKeepsServer(before, t);
      NextFrameId(before, t);
      RunKeepsStep(s, ss, missing, front);
      TurnKeepsStep(before, t, RunClient(s, ss, front), RunMissing(s, missing, front));
      NextGame(before, t);
    }
  }

  lemma NextGame(s: Sender, t: Turn)
    ensures Next(s, t).game == Updated(s, t)
  {
  }

  lemma {:induction false} NothingMissing(s: Sender, turns: seq<Turn>)
    ensures RunMissing(s, {}, turns) == {}
  {
    if turns != [] { NothingMissing(s, turns[..|turns| - 1]); }
  }

  /** End-to-end replication. Over every run from the initial state, a client
      that shows no entity at the start and gets every frame shows, after the last
      frame, exactly the server's live entities, each at its position. */
  lemma EndToEnd(limits: Limits, connected: nat, ss: seq<Sprite>, turns: seq<Turn>)
    requires forall id: nat :: Lookup(ss, id) == None
    requires Representable(RunServer(InitialServer(limits, connected), turns))
    ensures var s := InitialServer(limits, connected);
            forall id: nat :: Lookup(RunClient(s, ss, turns), id) == Shown(RunServer(s, turns).game.entities, {}, id)
  {
    hide RunServer, RunClient;
    var s := InitialServer(limits, connected);
    assert InStep(ss, s.game, {});
    RunKeepsStep(s, ss, {}, turns);
    NothingMissing(s, turns);
  }

  /** Of the positions only those are sent that the client has not been sent last. */
  lemma {:induction false} OnlyChangesAreSent(es: map<int, Entity>, cache: Cache, n: nat, e: Event)
    ensures e in Changes(es, cache, n)
            <==> e.Change? && 0 <= e.id < n && e.id in es && e.x == es[e.id].x && e.y == es[e.id].y
                 && (e.id !in cache || cache[e.id] != (e.x, e.y))
  {
    if n > 0 { OnlyChangesAreSent(es, cache, n - 1, e); }
  }

  /** Along every run a client shows nothing twice. */
  lemma {:induction false} RunShowsOnce(s: Sender, ss: seq<Sprite>, turns: seq<Turn>)
    requires OnceEach(ss)
    ensures OnceEach(RunClient(s, ss, turns))
  {
    hide OnceEach, Play, Message, ParseFrame;
    if turns != [] {
      var front, t := turns[..|turns| - 1], turns[|turns| - 1];
      RunShowsOnce(s, ss, front);
      var text := Message(RunServer(s, front), t);
      if ':' in text && ParseFrame(text).Some? {
        PlayShowsOnce(RunClient(s, ss, front), ParseFrame(text).value.packets);
      }
    }
  }
}

/** The pipeline over a network that duplicates and reorders. */
module Network {
  import opened Options
  import opened Text
  import opened Protocol
  import opened Playback
  import opened World
  import opened Replication
  import opened LateJoin
  import opened Delivery
  import Rules
  import Shots

  /** The packets of the frame sent in a turn, as a client stores them. */
  function Packets(s: Sender, t: Turn): seq<Packet> {
    Meanings(Sent(Updated(s, t), s.cache, t.connected > s.newest))
  }

  /** The packets of frame number `n` of a run. */
  function PacketsOfFrame(s: Sender, turns: seq<Turn>, n: int): seq<Packet>
    requires s.frameId <= n < s.frameId + |turns|
  {
    Packets(RunServer(s, turns[..n - s.frameId]), turns[n - s.frameId])
  }

  /** The frames of a run, by number. */
  function Published(s: Sender, turns: seq<Turn>): map<int, seq<Packet>> {
    map n | s.frameId <= n < s.frameId + |turns| :: PacketsOfFrame(s, turns, n)
  }

  /** A text the server sends in a run: a frame, or a control packet, which has no colon. */
  ghost predicate Broadcasted(text: string, s: Sender, turns: seq<Turn>) {
    ':' !in text || exists i :: 0 <= i < |turns| && text == Message(RunServer(s, turns[..i]), turns[i])
  }

  /** Everything that arrives was sent by the server, possibly late, twice or never. */
  ghost predicate FromServer(steps: seq<Step>, s: Sender, turns: seq<Turn>) {
    forall i :: 0 <= i < |steps| && steps[i].Arrive? ==> Broadcasted(steps[i].text, s, turns)
  }

  /** The published frames start with those of the run, and the number after them is not published. */
  ghost predicate Covers(published: map<int, seq<Packet>>, s: Sender, turns: seq<Turn>) {
    && (forall n :: s.frameId <= n < s.frameId + |turns| ==>
          n in published && published[n] == PacketsOfFrame(s, turns, n))
    && s.frameId + |turns| !in published
  }

  lemma {:induction false} FramesFit(s: Sender, turns: seq<Turn>, k: nat)
    requires k <= |turns| && ServerOk(s) && Representable(RunServer(s, turns))
    ensures Representable(RunServer(s, turns[..k])) && RunServer(s, turns[..k]).frameId == s.frameId + k
    ensures ServerOk(RunServer(s, turns[..k]))
    decreases |turns|
  {
    hide Next, ServerOk;
    RunKeepsServer(s, turns[..k]);
    if k == |turns| {
      assert turns[..k] == turns;
    } else {
      var front := turns[..|turns| - 1];
      assert front[..k] == turns[..k];
      RunKeepsServer(s, front);
      RunKeepsServer(s, turns);
      TurnKeepsServer(RunServer(s, front), turns[|turns| - 1]);
      FramesFit(s, front, k);
    }
  }

  lemma MessageReadBack(s: Sender, t: Turn)
    requires Int32(s.frameId)
    ensures ':' in Message(s, t)
    ensures ParseFrame(Message(s, t)).Some? && ParseFrame(Message(s, t)).value.id == s.frameId
    ensures ParseFrame(Message(s, t)).value.packets == Packets(s, t)
  {
    hide Updated, Sent, FrameText, ParseFrame;
    FrameRoundTrip(s.frameId, Sent(Updated(s, t), s.cache, t.connected > s.newest));
  }

  lemma StepIsFaithful(step: Step, s: Sender, turns: seq<Turn>)
    requires ServerOk(s) && Representable(RunServer(s, turns))
    requires step.Arrive? ==> Broadcasted(step.text, s, turns)
    ensures FaithfulStep(step, Published(s, turns))
  {
    hide ServerOk, Next, Message, ParseFrame, RunServer, Packets;
    if step.Arrive? && ':' in step.text {
      var i :| 0 <= i < |turns| && step.text == Message(RunServer(s, turns[..i]), turns[i]);
      FramesFit(s, turns, i);
      FramesFit(s, turns, i + 1);
      MessageReadBack(RunServer(s, turns[..i]), turns[i]);
    }
  }

  /** Playing the published frames in order is what a client that watches every frame does. */
  lemma {:induction false} PlayedInOrder(s: Sender, ss: seq<Sprite>, turns: seq<Turn>, published: map<int, seq<Packet>>,
                                         j: nat, k: nat)
    requires j <= k <= |turns| && ServerOk(s) && Representable(RunServer(s, turns)) && Covers(published, s, turns)
    ensures PlayRange(ss, published, s.frameId + j, s.frameId + k)
            == RunClient(RunServer(s, turns[..j]), ss, turns[j..k])
  {
    hide ServerOk, Next, Message, ParseFrame, RunServer, Play, Packets;
    if j < k {
      PlayedInOrder(s, ss, turns, published, j, k - 1);
      assert turns[j..k][..k - 1 - j] == turns[j..k - 1] && turns[..j] + turns[j..k - 1] == turns[..k - 1];
      RunServerAppend(s, turns[..j], turns[j..k - 1]);
      FramesFit(s, turns, k - 1);
      FramesFit(s, turns, k);
      MessageReadBack(RunServer(s, turns[..k - 1]), turns[k - 1]);
      assert published[s.frameId + k - 1] == PacketsOfFrame(s, turns, s.frameId + k - 1);
    }
  }

  /** Being in step is a matter of what is shown for each identifier. */
  lemma InStepIsPointwise(ss: seq<Sprite>, ts: seq<Sprite>, g: Game, missing: set<int>)
    requires InStep(ss, g, missing) && forall id: nat :: Lookup(ts, id) == Lookup(ss, id)
    ensures InStep(ts, g, missing)
  {
    hide Lookup;
  }

  /** Playback over a stretch of frames keeps a client in step. */
  lemma StretchKeepsStep(s: Sender, turns: seq<Turn>, published: map<int, seq<Packet>>, ss: seq<Sprite>,
                         missing: set<int>, j: nat, k: nat)
    requires j <= k <= |turns| && ServerOk(s) && Representable(RunServer(s, turns)) && Covers(published, s, turns)
    requires InStep(ss, RunServer(s, turns[..j]).game, missing)
    ensures InStep(PlayRange(ss, published, s.frameId + j, s.frameId + k), RunServer(s, turns[..k]).game,
                   RunMissing(RunServer(s, turns[..j]), missing, turns[j..k]))
  {
    hide ServerOk, Representable, RunServer, RunClient, RunMissing, InStep, PlayRange, Covers;
    var at := RunServer(s, turns[..j]);
    PlayedInOrder(s, ss, turns, published, j, k);
    FramesFit(s, turns, j);
    FramesFit(s, turns, k);
    RunServerAppend(s, turns[..j], turns[j..k]);
    assert turns[..j] + turns[j..k] == turns[..k];
    RunKeepsStep(at, ss, missing, turns[j..k]);
  }

  /** What a client is missing that started out with `missing`: since its sprites were
      last taken away it only has what frames have brought since. */
  ghost function Missing(s: Sender, turns: seq<Turn>, missing: set<int>, cleared: bool, j: nat, k: nat): set<int>
    requires j <= k <= |turns|
  {
    if cleared then Lacking(RunServer(s, turns[..j]), turns[j..k]) else RunMissing(s, missing, turns[..k])
  }

  lemma CoversGap(published: map<int, seq<Packet>>, s: Sender, turns: seq<Turn>)
    requires Covers(published, s, turns)
    ensures s.frameId + |turns| !in published
  {
  }

  /** The stretch of frames between the last clearing and the playhead lies in the run. */
  lemma StretchInRun(s: Sender, turns: seq<Turn>, published: map<int, seq<Packet>>, v: Viewer, steps: seq<Step>)
    requires Covers(published, s, turns) && Blank(v) && Allowed(v, steps) && Faithful(steps, published)
    requires Begun(v, steps) == s.frameId
    ensures s.frameId <= From(v, steps) <= After(v, steps).cursor <= s.frameId + |turns|
    ensures !Wiped(v, steps) ==> From(v, steps) == s.frameId
  {
    hide Allowed, After, Begun, From, Wiped, Faithful, PacketsOfFrame, Covers, Blank, Numbers;
    CoversGap(published, s, turns);
    Playhead(v, steps, published);
    GapIsNeverPassed(v, steps, published, s.frameId + |turns|);
  }

  /** A client that begins with the first frame of a run and is in step with the
      state before it shows, whatever the network and the keyboard do, the state
      after the frames it has played, but for exactly what it is missing. */
  lemma AnyDeliveryKeepsStep(s: Sender, turns: seq<Turn>, published: map<int, seq<Packet>>, v: Viewer, steps: seq<Step>,
                             missing: set<int>)
    requires ServerOk(s) && Representable(RunServer(s, turns)) && InStep(v.sprites, s.game, missing)
    requires Covers(published, s, turns) && Blank(v) && Allowed(v, steps) && Faithful(steps, published)
    requires Begun(v, steps) == s.frameId
    ensures var w := After(v, steps);
            var j, k := From(v, steps) - s.frameId, w.cursor - s.frameId;
            && 0 <= j <= k <= |turns|
            && InStep(w.sprites, RunServer(s, turns[..k]).game, Missing(s, turns, missing, Wiped(v, steps), j, k))
  {
    hide ServerOk, RunServer, RunClient, RunMissing, Representable, InStep, PlayRange, Covers, Lacking;
    hide Allowed, After, Begun, From, Wiped, Faithful, Blank, Lookup;
    StretchInRun(s, turns, published, v, steps);
    var w := After(v, steps);
    var j, k := From(v, steps) - s.frameId, w.cursor - s.frameId;
    var at := RunServer(s, turns[..j]);
    FramesFit(s, turns, j);
    assert !Wiped(v, steps) ==> j == 0 && turns[..0] == [] && turns[0..k] == turns[..k];
    RunNothing(s);
    NothingIsShown();
    StartsOut([], at.game);
    var before := if Wiped(v, steps) then at.game.entities.Keys else missing;
    StretchKeepsStep(s, turns, published, Base(v, steps), before, j, k);
    MissingAlongRun(at, turns[j..k]);
    forall id: nat
      ensures Lookup(w.sprites, id) == Lookup(PlayRange(Base(v, steps), published, From(v, steps), w.cursor), id)
    {
      DeliveryIndependence(v, steps, published, id);
    }
    InStepIsPointwise(PlayRange(Base(v, steps), published, From(v, steps), w.cursor), w.sprites,
                      RunServer(s, turns[..k]).game, Missing(s, turns, missing, Wiped(v, steps), j, k));
  }

  lemma RunNothing(s: Sender)
    ensures RunServer(s, []) == s
  {
  }

  lemma NothingIsShown()
    ensures forall id: nat :: Lookup([], id) == None
  {
  }

  lemma PublishedCovers(s: Sender, turns: seq<Turn>)
    ensures Covers(Published(s, turns), s, turns)
  {
    hide PacketsOfFrame;
  }

  lemma ServerIsFaithful(s: Sender, turns: seq<Turn>, steps: seq<Step>)
    requires ServerOk(s) && Representable(RunServer(s, turns)) && FromServer(steps, s, turns)
    ensures Faithful(steps, Published(s, turns))
  {
    hide ServerOk, Representable, RunServer, FaithfulStep, Published, Broadcasted;
    forall i | 0 <= i < |steps| ensures FaithfulStep(steps[i], Published(s, turns)) {
      StepIsFaithful(steps[i], s, turns);
    }
  }

  /** End-to-end over an unreliable network. A client that shows no entity and begins
      with the game's first frame shows the entities that were live on the server at
      the frame it has played last, each at its position, but for those it lacks
      since its sprites were last taken away. */
  lemma AnyDelivery(limits: Limits, connected: nat, turns: seq<Turn>, v: Viewer, steps: seq<Step>)
    requires var s := InitialServer(limits, connected);
             Representable(RunServer(s, turns)) && FromServer(steps, s, turns)
    requires forall id: nat :: Lookup(v.sprites, id) == None
    requires Blank(v) && Allowed(v, steps) && Begun(v, steps) == 0
    ensures var s, j, k := InitialServer(limits, connected), From(v, steps), After(v, steps).cursor;
            && 0 <= j <= k <= |turns|
            && InStep(After(v, steps).sprites, RunServer(s, turns[..k]).game,
                      if Wiped(v, steps) then Lacking(RunServer(s, turns[..j]), turns[j..k]) else {})
  {
    hide RunServer, Allowed, After, Begun, From, Wiped, FromServer, Lacking, InStep, Published, Covers, RunMissing;
    var s := InitialServer(limits, connected);
    StartsInStep(limits, v.sprites);
    ServerIsFaithful(s, turns, steps);
    PublishedCovers(s, turns);
    AnyDeliveryKeepsStep(s, turns, Published(s, turns), v, steps, {});
    NothingMissing(s, turns[..After(v, steps).cursor]);
  }

  lemma StartsInStep(limits: Limits, ss: seq<Sprite>)
    requires forall id: nat :: Lookup(ss, id) == None
    ensures InStep(ss, InitialGame(limits), {})
  {
  }

  /** Such a client shows exactly the live entities if and only if its sprites were
      never taken away since it began, or every entity live at the last clearing has
      died since or been carried by a dump. */
  lemma InStepExactlyWhen(limits: Limits, connected: nat, turns: seq<Turn>, v: Viewer, steps: seq<Step>)
    requires var s := InitialServer(limits, connected);
             Representable(RunServer(s, turns)) && FromServer(steps, s, turns)
    requires forall id: nat :: Lookup(v.sprites, id) == None
    requires Blank(v) && Allowed(v, steps) && Begun(v, steps) == 0
    ensures var s, j, k := InitialServer(limits, connected), From(v, steps), After(v, steps).cursor;
            && 0 <= j <= k <= |turns|
            && (InStep(After(v, steps).sprites, RunServer(s, turns[..k]).game, {})
                <==> !Wiped(v, steps) || forall id :: !Lacks(RunServer(s, turns[..j]), turns[j..k], id))
  {
    hide RunServer, Allowed, After, Begun, From, Wiped, FromServer, InStep, Blank, Lacks, ServerOk, Representable;
    StartOk(limits, connected);
    AnyDelivery(limits, connected, turns, v, steps);
    var s, j, k := InitialServer(limits, connected), From(v, steps), After(v, steps).cursor;
    var at, stretch := RunServer(s, turns[..j]), turns[j..k];
    LackingIsLacks(at, stretch);
    FramesFit(s, turns, j);
    LackedIds(at, stretch);
    var g := RunServer(s, turns[..k]).game;
    RunServerAppend(s, turns[..j], stretch);
    assert turns[..j] + stretch == turns[..k];
    if Wiped(v, steps) { MissingIsExact(After(v, steps).sprites, g, Lacking(at, stretch)); }
  }

  lemma StartOk(limits: Limits, connected: nat)
    ensures ServerOk(InitialServer(limits, connected))
  {
  }

  lemma LackedIds(s: Sender, turns: seq<Turn>)
    requires ServerOk(s)
    ensures forall id :: id in Lacking(s, turns) ==> 0 <= id
  {
    hide RunServer, DumpSent;
  }

  lemma LackingIsLacks(s: Sender, turns: seq<Turn>)
    ensures forall id :: id in Lacking(s, turns) <==> Lacks(s, turns, id)
  {
    hide RunServer, DumpSent;
  }

  /** A client cannot be in step with two missing sets. */
  lemma MissingIsExact(ss: seq<Sprite>, g: Game, missing: set<int>)
    requires InStep(ss, g, missing) && forall id :: id in missing ==> 0 <= id
    ensures InStep(ss, g, {}) <==> forall id :: id !in missing
  {
    hide Lookup;
    if InStep(ss, g, {}) {
      forall id: nat ensures id !in missing {
        assert Lookup(ss, id) == Shown(g.entities, missing, id) && Lookup(ss, id) == Shown(g.entities, {}, id);
      }
    }
  }

  /** The same for a client that joins a running game, or one that had been cleared
      before: it lacks what lived through the frames it has played, but for what a
      dump among them has carried. */
  lemma AnyDeliveryToLateJoiner(s: Sender, turns: seq<Turn>, v: Viewer, steps: seq<Step>)
    requires ServerOk(s) && Representable(RunServer(s, turns)) && FromServer(steps, s, turns)
    requires forall id: nat :: Lookup(v.sprites, id) == None
    requires Blank(v) && Allowed(v, steps) && Begun(v, steps) == s.frameId
    ensures var w := After(v, steps);
            var j, k := From(v, steps) - s.frameId, w.cursor - s.frameId;
            && 0 <= j <= k <= |turns|
            && InStep(w.sprites, RunServer(s, turns[..k]).game, Lacking(RunServer(s, turns[..j]), turns[j..k]))
  {
    hide RunServer, Allowed, After, Begun, From, Wiped, FromServer, ServerOk, Representable, RunMissing, Lacking;
    hide InStep, Published, Covers, Faithful, Blank;
    StartsOut(v.sprites, s.game);
    ServerIsFaithful(s, turns, steps);
    PublishedCovers(s, turns);
    AnyDeliveryKeepsStep(s, turns, Published(s, turns), v, steps, s.game.entities.Keys);
    StretchInRun(s, turns, Published(s, turns), v, steps);
    var k := After(v, steps).cursor - s.frameId;
    if !Wiped(v, steps) {
      RunNothing(s);
      assert turns[..0] == [] && turns[0..k] == turns[..k];
      MissingAlongRun(s, turns[..k]);
    }
  }

  // ----- The packet that clears the screen -----

  /** The packet for a game not started, which every client that joins early is
      sent, clears the screen of a client that plays, whenever it comes: the entities
      that live are gone, although the frames did not say so. */
  lemma LateLobbyPacket(v: Viewer, button: (int, int), g: Game)
    requires InStep(v.sprites, g, {})
    ensures var steps := [Arrive(ControlText(GAME_NOT_STARTED, -1)), Loop(false, button)];
            && Allowed(v, steps) && After(v, steps).sprites == Lobby(button)
            && InStep(After(v, steps).sprites, g, g.entities.Keys)
            && (InStep(After(v, steps).sprites, g, {}) <==> forall id: nat :: id !in g.entities)
  {
    hide ParseFields, ControlText, Lookup;
    var text := ControlText(GAME_NOT_STARTED, -1);
    var steps := [Arrive(text), Loop(false, button)];
    ControlRoundTrip(GAME_NOT_STARTED, -1);
    ControlIsNotEmpty(GAME_NOT_STARTED, -1);
    assert steps[..1] == [steps[0]] && steps[..1][..0] == [];
    assert Allowed(v, []) && Allowed(v, steps[..1]) && After(v, steps[..1]) == Receive(v, text);
    forall id: nat ensures Lookup(Lobby(button), id) == None { LobbyIsEmpty(button, id); }
    assert After(v, steps).sprites == Lobby(button);
    if InStep(Lobby(button), g, {}) {
      forall id: nat ensures id !in g.entities {
        assert Lookup(Lobby(button), id) == Shown(g.entities, {}, id);
      }
    }
  }

  lemma ControlIsNotEmpty(code: nat, value: int)
    requires code <= WIN
    ensures ControlText(code, value) != ""
  {
  }

  // ----- The win -----

  ghost predicate ShowsWin(ps: seq<Packet>) { exists i :: 0 <= i < |ps| && ps[i].action == WIN }

  lemma {:induction false} WinPackets(es: seq<Event>)
    ensures ShowsWin(Meanings(es)) <==> Win in es
  {
    if es != [] {
      var front, e := es[..|es| - 1], es[|es| - 1];
      WinPackets(front);
      assert es == front + [e];
      var ps, before := Meanings(es), Meanings(front);
      if Int32(IdField(e)) && e != Important {
        assert ps == before + [Meaning(e)] && (Meaning(e).action == WIN <==> e == Win);
        assert ps[|before|] == Meaning(e) && forall i :: 0 <= i < |before| ==> ps[i] == before[i];
      } else {
        assert ps == before;
      }
    }
  }

  lemma {:induction false} NoWins(es: map<int, Entity>, cache: Cache, n: nat)
    ensures Win !in Dump(es, n) && Win !in Changes(es, cache, n)
  {
    if n > 0 { NoWins(es, cache, n - 1); }
  }

  /** A frame tells the client of the win exactly when the game is won. */
  lemma WinIsShown(s: Sender, t: Turn)
    requires ServerOk(s)
    ensures ShowsWin(Packets(s, t)) <==> Rules.Won(Updated(s, t))
  {
    hide Updated, ServerOk, ShowsWin, Meanings, Rules.Won;
    var g := Updated(s, t);
    Shots.TurnHits(s, t);
    NoWins(g.entities, s.cache, g.nextId);
    WinPackets(Sent(g, s.cache, t.connected > s.newest));
  }
}

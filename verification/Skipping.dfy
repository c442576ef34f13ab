/** What happens when the server is too slow and skips frames. */
module Skipping {
  import opened Options
  import opened Text
  import opened Protocol
  import opened Playback
  import opened World
  import opened Rules
  import opened Steps
  import opened Updates
  import opened Replication
  import opened Delivery
  import opened Network

  /** Updates whose frames are never sent, because newer ones come first. */
  function Unsent(g: Game, turns: seq<Turn>): Game {
    if turns == [] then g
    else
      var t := turns[|turns| - 1];
      Update(AddAll(Unsent(g, turns[..|turns| - 1]), t.arrivals), t.input)
  }

  /** The game when the next frame is sent. */
  function SentGame(s: Sender, skipped: seq<Turn>, t: Turn): Game {
    Update(AddAll(Unsent(s.game, skipped), t.arrivals), t.input)
  }

  /** What the identifiers of an older state tell about a newer one. */
  ghost predicate Later(a: Game, b: Game) {
    && Sound(b) && a.nextId <= b.nextId
    && forall id :: id in b.entities && id < a.nextId ==> id in a.entities && b.entities[id].kind == a.entities[id].kind
  }

  lemma UpdateIsLater(a: Game, arrivals: seq<(int, int)>, input: Input)
    requires Sound(a)
    ensures var b, g := Begin(AddAll(a, arrivals)), Update(AddAll(a, arrivals), input);
            Later(a, g) && Sound(b) && b.entities == a.entities && b.nextId == a.nextId && Since(b, g)
  {
    hide Update, Sound, Since;
    AddAllSound(a, arrivals);
    UpdateStep(AddAll(a, arrivals), input);
    BeginSound(AddAll(a, arrivals));
  }

  lemma AddAllSound(a: Game, arrivals: seq<(int, int)>)
    requires Sound(a)
    ensures var b := AddAll(a, arrivals); Sound(b) && b.entities == a.entities && b.nextId == a.nextId
  {
    AddAllKeeps(a, arrivals);
  }

  lemma {:induction false} UnsentIsLater(g: Game, turns: seq<Turn>)
    requires Sound(g)
    ensures Later(g, Unsent(g, turns))
  {
    hide Update, Sound;
    if turns != [] {
      var front, t := turns[..|turns| - 1], turns[|turns| - 1];
      UnsentIsLater(g, front);
      UpdateIsLater(Unsent(g, front), t.arrivals, t.input);
    }
  }

  /** Nothing the skipped frames would have told is missed: no entity created in
      them is still live, but for those a dump carries, and none died in them that
      the client shows. */
  ghost predicate NothingMissed(sent: Game, mid: Game, g: Game, newcomer: bool) {
    && (forall id :: id in g.entities && sent.nextId <= id < mid.nextId ==> newcomer && Dumped(g.entities[id].kind))
    && (forall id :: id in sent.entities ==> id in mid.entities)
  }

  /** What the client shows for one identifier when the frames between are skipped. */
  function ShownAfterSkip(sent: Game, mid: Game, g: Game, newcomer: bool, id: nat, sprite: Option<Sprite>)
    : Option<Sprite> {
    if id < sent.nextId && id in sent.entities && id !in mid.entities then sprite
    else if sent.nextId <= id < mid.nextId && id in g.entities && !(newcomer && Dumped(g.entities[id].kind)) then None
    else Shown(g.entities, {}, id)
  }

  lemma OneIdentifier(ss: seq<Sprite>, s: Sender, mid: Game, b: Game, g: Game, newcomer: bool, id: nat)
    requires ServerOk(s) && InStep(ss, s.game, {}) && g.nextId <= INT_MAX + 1
    requires Later(s.game, mid) && Sound(b) && b.entities == mid.entities && b.nextId == mid.nextId
    requires Since(b, g) && Later(mid, g)
    ensures Lookup(Play(ss, Meanings(Sent(g, s.cache, newcomer))), id)
            == ShownAfterSkip(s.game, mid, g, newcomer, id, Lookup(ss, id))
  {
    hide Sent, Play, Meanings, Lookup, LookOf, Marked, Dumped;
    PlaySent(ss, b, g, s.cache, newcomer, id);
    StoryRanges(g.frame, b.nextId);
  }

  /** The content of the next frame sent makes up for the skipped ones exactly when
      nothing they would have told is missed: its packets, played on sprites that
      were in step before, give the live entities. */
  lemma ContentMakesUp(ss: seq<Sprite>, s: Sender, skipped: seq<Turn>, t: Turn)
    requires ServerOk(s) && InStep(ss, s.game, {}) && SentGame(s, skipped, t).nextId <= INT_MAX + 1
    ensures var g, newcomer := SentGame(s, skipped, t), t.connected > s.newest;
            InStep(Play(ss, Meanings(Sent(g, s.cache, newcomer))), g, {})
            <==> NothingMissed(s.game, Unsent(s.game, skipped), g, newcomer)
    ensures var g := SentGame(s, skipped, t); CacheOk(g, Refreshed(g.entities, s.cache, g.nextId))
  {
    hide Sent, Play, Meanings, Update, Unsent, Refreshed;
    var mid, g, newcomer := Unsent(s.game, skipped), SentGame(s, skipped, t), t.connected > s.newest;
    UnsentIsLater(s.game, skipped);
    UpdateIsLater(mid, t.arrivals, t.input);
    RefreshedOk(g, s.cache);
    var after := Play(ss, Meanings(Sent(g, s.cache, newcomer)));
    forall id: nat ensures Lookup(after, id) == ShownAfterSkip(s.game, mid, g, newcomer, id, Lookup(ss, id)) {
      OneIdentifier(ss, s, mid, Begin(AddAll(mid, t.arrivals)), g, newcomer, id);
    }
    DifferenceIsMissed(ss, after, s, mid, g, newcomer);
  }

  lemma DifferenceIsMissed(ss: seq<Sprite>, after: seq<Sprite>, s: Sender, mid: Game, g: Game, newcomer: bool)
    requires ServerOk(s) && InStep(ss, s.game, {}) && Later(s.game, mid) && Later(mid, g)
    requires forall id: nat :: Lookup(after, id) == ShownAfterSkip(s.game, mid, g, newcomer, id, Lookup(ss, id))
    ensures InStep(after, g, {}) <==> NothingMissed(s.game, mid, g, newcomer)
  {
    if InStep(after, g, {}) {
      forall id | id in g.entities && s.game.nextId <= id < mid.nextId
        ensures newcomer && Dumped(g.entities[id].kind)
      {
        assert Lookup(after, id) == Shown(g.entities, {}, id);
      }
      forall id | id in s.game.entities ensures id in mid.entities {
        assert Lookup(after, id) == Shown(g.entities, {}, id) && Lookup(ss, id) == Shown(s.game.entities, {}, id);
      }
    }
    if NothingMissed(s.game, mid, g, newcomer) {
      forall id: nat ensures Lookup(after, id) == Shown(g.entities, {}, id) {
        assert id in g.entities && s.game.nextId <= id < mid.nextId ==> newcomer && Dumped(g.entities[id].kind);
      }
    }
  }

  // ----- Playback when frames are skipped -----

  /** A turn whose frame is sent, or is overtaken by the next one; every frame has its number. */
  datatype Beat = Beat(turn: Turn, sent: bool)

  function NextBeat(s: Sender, b: Beat): Sender {
    if b.sent then Next(s, b.turn) else s.(game := Updated(s, b.turn), frameId := s.frameId + 1)
  }

  function RunBeats(s: Sender, beats: seq<Beat>): Sender {
    if beats == [] then s else NextBeat(RunBeats(s, beats[..|beats| - 1]), beats[|beats| - 1])
  }

  /** Frame number `n` is one of the run, and was sent. */
  predicate WasSent(s: Sender, beats: seq<Beat>, n: int) {
    s.frameId <= n < s.frameId + |beats| && beats[n - s.frameId].sent
  }

  function PacketsOfBeat(s: Sender, beats: seq<Beat>, n: int): seq<Packet>
    requires WasSent(s, beats, n)
  {
    Packets(RunBeats(s, beats[..n - s.frameId]), beats[n - s.frameId].turn)
  }

  /** The frames sent, by number. */
  function SentFrames(s: Sender, beats: seq<Beat>): map<int, seq<Packet>> {
    map n | s.frameId <= n < s.frameId + |beats| && WasSent(s, beats, n) :: PacketsOfBeat(s, beats, n)
  }

  ghost predicate BeatText(text: string, s: Sender, beats: seq<Beat>, i: int) {
    0 <= i < |beats| && beats[i].sent && text == Message(RunBeats(s, beats[..i]), beats[i].turn)
  }

  /** Everything that arrives is a control packet or a frame that was sent. */
  ghost predicate FromBeats(steps: seq<Step>, s: Sender, beats: seq<Beat>) {
    forall i :: 0 <= i < |steps| && steps[i].Arrive? && ':' in steps[i].text ==>
      exists j :: BeatText(steps[i].text, s, beats, j)
  }

  lemma {:induction false} BeatNumber(s: Sender, beats: seq<Beat>)
    ensures RunBeats(s, beats).frameId == s.frameId + |beats|
  {
    hide Updated;
    if beats != [] {
      BeatNumber(s, beats[..|beats| - 1]);
      NextFrameId(RunBeats(s, beats[..|beats| - 1]), beats[|beats| - 1].turn);
    }
  }

  lemma BeatIsFaithful(step: Step, s: Sender, beats: seq<Beat>, j: int)
    requires s.frameId + |beats| <= INT_MAX + 1 && step.Arrive? && BeatText(step.text, s, beats, j)
    ensures FaithfulStep(step, SentFrames(s, beats))
  {
    hide Message, ParseFrame, RunBeats, Packets;
    BeatNumber(s, beats[..j]);
    MessageReadBack(RunBeats(s, beats[..j]), beats[j].turn);
    assert WasSent(s, beats, s.frameId + j);
  }

  lemma BeatsAreFaithful(steps: seq<Step>, s: Sender, beats: seq<Beat>)
    requires s.frameId + |beats| <= INT_MAX + 1 && FromBeats(steps, s, beats)
    ensures Faithful(steps, SentFrames(s, beats))
  {
    hide FaithfulStep, SentFrames, BeatText;
    forall i | 0 <= i < |steps| ensures FaithfulStep(steps[i], SentFrames(s, beats)) {
      if steps[i].Arrive? && ':' in steps[i].text {
        var j :| BeatText(steps[i].text, s, beats, j);
        BeatIsFaithful(steps[i], s, beats, j);
      } else {
        QuietIsFaithful(steps[i], SentFrames(s, beats));
      }
    }
  }

  lemma QuietIsFaithful(step: Step, published: map<int, seq<Packet>>)
    requires !step.Arrive? || ':' !in step.text
    ensures FaithfulStep(step, published)
  {
  }

  /** Playback passes a frame if and only if the frame was sent and has arrived. At
      any other number the program would use the end of its map as a frame. */
  lemma PassesExactlyWhatWasSent(s: Sender, beats: seq<Beat>, v: Viewer, steps: seq<Step>, button: (int, int))
    requires s.frameId + |beats| <= INT_MAX + 1 && FromBeats(steps, s, beats)
    requires Blank(v) && Allowed(v, steps) && Begun(v, steps) != -1
    ensures var n, turn := After(v, steps).cursor, Loop(true, button);
            && (Possible(After(v, steps), turn) <==> n in Numbers(steps))
            && (n in Numbers(steps) ==> WasSent(s, beats, n) && Do(After(v, steps), turn).cursor == n + 1)
  {
    hide Allowed, After, Begun, Numbers, Possible, Do, FromBeats, PacketsOfBeat;
    BeatsAreFaithful(steps, s, beats);
    PassesExactlyWhatArrived(v, steps, SentFrames(s, beats), button);
  }

  function Turns(beats: seq<Beat>): seq<Turn> {
    seq(|beats|, i requires 0 <= i < |beats| => beats[i].turn)
  }

  lemma {:induction false} AllSentIsRun(s: Sender, beats: seq<Beat>)
    requires forall i :: 0 <= i < |beats| ==> beats[i].sent
    ensures RunBeats(s, beats) == RunServer(s, Turns(beats))
  {
    hide Next;
    if beats != [] {
      var front := beats[..|beats| - 1];
      assert Turns(beats)[..|beats| - 1] == Turns(front);
      AllSentIsRun(s, front);
    }
  }

  /** Before the first skipped frame everything is as in a run that skips none. */
  lemma CoversUpToSkip(s: Sender, beats: seq<Beat>, skip: nat)
    requires skip < |beats| && !beats[skip].sent && forall i :: 0 <= i < skip ==> beats[i].sent
    ensures Covers(SentFrames(s, beats), s, Turns(beats[..skip]))
  {
    hide RunBeats, RunServer, Packets;
    var turns := Turns(beats[..skip]);
    forall n | s.frameId <= n < s.frameId + skip
      ensures WasSent(s, beats, n) && PacketsOfBeat(s, beats, n) == PacketsOfFrame(s, turns, n)
    {
      var i := n - s.frameId;
      AllSentIsRun(s, beats[..i]);
      assert Turns(beats[..i]) == turns[..i];
    }
  }

  /** A skipped frame stops playback. A client never gets past its number: it shows
      the state after one of the frames before it, and when the playhead has reached
      the number, no turn whose clock fires is possible any more. */
  lemma SkipStopsPlayback(s: Sender, beats: seq<Beat>, skip: nat, v: Viewer, steps: seq<Step>, missing: set<int>,
                          button: (int, int))
    requires skip < |beats| && !beats[skip].sent && forall i :: 0 <= i < skip ==> beats[i].sent
    requires ServerOk(s) && Representable(RunServer(s, Turns(beats[..skip]))) && InStep(v.sprites, s.game, missing)
    requires s.frameId + |beats| <= INT_MAX + 1 && FromBeats(steps, s, beats)
    requires Blank(v) && Allowed(v, steps) && Begun(v, steps) == s.frameId
    ensures var w, turns := After(v, steps), Turns(beats[..skip]);
            var j, k := From(v, steps) - s.frameId, w.cursor - s.frameId;
            && 0 <= j <= k <= skip
            && InStep(w.sprites, RunServer(s, turns[..k]).game, Missing(s, turns, missing, Wiped(v, steps), j, k))
            && (k == skip ==> !Possible(w, Loop(true, button)))
  {
    hide Allowed, After, Begun, From, Wiped, Numbers, Possible, FromBeats, RunServer, ServerOk, Representable;
    hide InStep, Missing, Covers, Blank, Faithful, SentFrames;
    BeatsAreFaithful(steps, s, beats);
    CoversUpToSkip(s, beats, skip);
    AnyDeliveryKeepsStep(s, Turns(beats[..skip]), SentFrames(s, beats), v, steps, missing);
    PassesExactlyWhatWasSent(s, beats, v, steps, button);
  }
}

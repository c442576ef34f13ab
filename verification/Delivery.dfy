/** A client between the network, the keyboard and the screen: messages arrive in
    any order, any number of times; frames are played in the order of their numbers. */
module Delivery {
  import opened Options
  import opened Protocol
  import opened Playback

  // ----- Control packets -----

  const BACKGROUND_ID: int := -100
  const START_BUTTON_ID: int := -101

  /** No control packet is held, or the one held has been obeyed. */
  const NO_PACKET := Packet(-1, 0, 0, 0)

  /** The lobby: the background and the start button. */
  function Lobby(button: (int, int)): seq<Sprite> {
    [Sprite(BACKGROUND_ID, 0, 0, BackgroundSprite), Sprite(START_BUTTON_ID, button.0, button.1, StartButtonSprite)]
  }

  /** The sprites after a control packet has been obeyed. */
  function Layers(action: int, ss: seq<Sprite>, button: (int, int)): seq<Sprite> {
    if action == GAME_NOT_STARTED then Lobby(button)
    else if action == GAME_START then
      var i := Find(ss, START_BUTTON_ID);
      if i < |ss| then ss[..i] + ss[i + 1..] else ss
    else ss
  }

  /** The control packet held after a text. */
  function Obeyed(held: Packet, text: string): Packet {
    if text == "" || ':' in text then held
    else match ParseFields(text)
         case None => held
         case Some(p) =>
           if p.action == GAME_NOT_STARTED || p.action == GAME_START || p.action == GAME_STARTED then p else held
  }

  // ----- The client -----

  /** The frame map, the next frame to play (-1 before the first), the last
      number received (-1 before the first), the sprites, and the control packet held. */
  datatype Viewer =
    Viewer(frames: map<int, seq<Packet>>, cursor: int, last: int, sprites: seq<Sprite>, held: Packet)

  /** What can happen to a client: a text arrives, the main loop turns, with its
      frame clock fired or not, or between two turns Escape or the mouse is pressed. */
  datatype Step =
    | Arrive(text: string)
    | Loop(fired: bool, button: (int, int))
    | Escape(button: (int, int))
    | Click

  /** A text arrives: a frame is stored unless its number is already there; a
      control packet waits for the next turn of the loop. */
  function Receive(v: Viewer, text: string): Viewer {
    if ':' !in text then v.(held := Obeyed(v.held, text))
    else match ParseFrame(text)
         case None => v
         case Some(f) =>
           v.(frames := if f.id in v.frames then v.frames else v.frames[f.id := f.packets], last := f.id)
  }

  /** A click takes the start button away when it is on top. */
  function Clicked(ss: seq<Sprite>): seq<Sprite> {
    if ss != [] && ss[|ss| - 1].id == START_BUTTON_ID then ss[..|ss| - 1] else ss
  }

  lemma NoMember(s: set<int>)
    ensures (forall k :: k !in s) ==> s == {}
  {
    if forall k :: k !in s {
      assert s == {};
    }
  }

  lemma SomeMember(s: set<int>)
    requires s != {}
    ensures exists k :: k in s
  {
    NoMember(s);
  }

  lemma {:induction false} ThereIsLeast(s: set<int>)
    requires s != {}
    ensures exists k :: k in s && forall j :: j in s ==> k <= j
    decreases |s|
  {
    SomeMember(s);
    var x :| x in s;
    var rest := s - {x};
    assert forall j :: j in s <==> j in rest || j == x;
    if rest == {} {
      assert forall j :: j in s ==> x <= j;
    } else {
      ThereIsLeast(rest);
      var k :| k in rest && forall j :: j in rest ==> k <= j;
      var least := if x < k then x else k;
      assert forall j :: j in s ==> least <= j;
    }
  }

  /** The key of `begin()` in an ordered map. */
  ghost function Least(s: set<int>): (k: int)
    requires s != {}
    ensures k in s && forall j :: j in s ==> k <= j
  {
    ThereIsLeast(s);
    var k :| k in s && forall j :: j in s ==> k <= j;
    k
  }

  /** The start of a turn: the number playback starts from is chosen once, when a
      frame has been received. */
  ghost function Select(v: Viewer): Viewer {
    if v.last != -1 && v.cursor == -1 && v.frames != map[] then v.(cursor := Least(v.frames.Keys)) else v
  }

  /** A turn of the loop up to its frame clock: the start of playback, and the
      control packet, which is obeyed once. */
  ghost function Prepared(v: Viewer, button: (int, int)): Viewer {
    var w := Select(v);
    w.(sprites := Layers(w.held.action, w.sprites, button), held := w.held.(action := -1))
  }

  /** The frame to play is there, or there is nothing to play yet. */
  ghost predicate CanPlay(v: Viewer) { v.frames == map[] || v.cursor in v.frames }

  ghost function PlayNext(v: Viewer): Viewer
    requires CanPlay(v)
  {
    if v.frames == map[] then v
    else v.(cursor := v.cursor + 1, sprites := Play(v.sprites, v.frames[v.cursor]))
  }

  /** A turn whose clock fires needs its frame; the program does not look whether it is there. */
  ghost predicate Possible(v: Viewer, step: Step) {
    step.Loop? && step.fired ==> CanPlay(Prepared(v, step.button))
  }

  ghost function Do(v: Viewer, step: Step): Viewer
    requires Possible(v, step)
  {
    match step
    case Arrive(text) => Receive(v, text)
    case Loop(fired, button) => if fired then PlayNext(Prepared(v, button)) else Prepared(v, button)
    case Escape(button) => v.(sprites := Lobby(button))
    case Click => v.(sprites := Clicked(v.sprites))
  }

  ghost predicate Allowed(v: Viewer, steps: seq<Step>)
    decreases |steps|, 0
  {
    steps == [] ||
    (var front := steps[..|steps| - 1];
     Allowed(v, front) && Possible(After(v, front), steps[|steps| - 1]))
  }

  ghost function After(v: Viewer, steps: seq<Step>): Viewer
    requires Allowed(v, steps)
    decreases |steps|, 1
  {
    if steps == [] then v else Do(After(v, steps[..|steps| - 1]), steps[|steps| - 1])
  }

  /** A client that has received nothing. */
  predicate Blank(v: Viewer) { v.frames == map[] && v.cursor == -1 && v.last == -1 }

  // ----- Clearing -----

  /** The step takes every sprite away: the Escape key, or a turn that obeys the
      packet for a game not started. */
  predicate Wipes(v: Viewer, step: Step) {
    step.Escape? || (step.Loop? && v.held.action == GAME_NOT_STARTED)
  }

  ghost predicate Wiped(v: Viewer, steps: seq<Step>)
    requires Allowed(v, steps)
    decreases |steps|, 2
  {
    steps != [] &&
    (var front := steps[..|steps| - 1];
     Wiped(v, front) || Wipes(After(v, front), steps[|steps| - 1]))
  }

  /** The number playback began with; -1 while it has not. */
  ghost function Begun(v: Viewer, steps: seq<Step>): int
    requires Allowed(v, steps)
    decreases |steps|, 2
  {
    if steps == [] then v.cursor
    else
      var front := steps[..|steps| - 1];
      var w := After(v, front);
      if w.cursor == -1 && steps[|steps| - 1].Loop? then Select(w).cursor else Begun(v, front)
  }

  /** The playhead when the sprites were taken away last, or else where playback began. */
  ghost function From(v: Viewer, steps: seq<Step>): int
    requires Allowed(v, steps)
    decreases |steps|, 2
  {
    if steps == [] then v.cursor
    else
      var front, step := steps[..|steps| - 1], steps[|steps| - 1];
      var w := After(v, front);
      if step.Loop? && (w.cursor == -1 || Wipes(w, step)) then Select(w).cursor
      else if step.Escape? then w.cursor
      else From(v, front)
  }

  // ----- What steps leave alone -----

  lemma FindOther(s: Sprite, id: int)
    requires s.id != id
    ensures Find([s], id) == 1 && Lookup([s], id) == None
  {
  }

  lemma LookupAppend(ss: seq<Sprite>, ts: seq<Sprite>, id: int)
    ensures Lookup(ss + ts, id) == if Lookup(ss, id).Some? then Lookup(ss, id) else Lookup(ts, id)
  {
    hide Find;
    FindAppend(ss, ts, id);
  }

  lemma FindWithoutOne(ss: seq<Sprite>, i: nat, id: int)
    requires i < |ss| && ss[i].id != id
    ensures Lookup(ss[..i] + ss[i + 1..], id) == Lookup(ss, id)
  {
    hide Find, Lookup;
    assert ss == ss[..i] + ([ss[i]] + ss[i + 1..]);
    FindOther(ss[i], id);
    LookupAppend(ss[..i], [ss[i]] + ss[i + 1..], id);
    LookupAppend([ss[i]], ss[i + 1..], id);
    LookupAppend(ss[..i], ss[i + 1..], id);
  }

  lemma LobbyIsEmpty(button: (int, int), id: nat)
    ensures Lookup(Lobby(button), id) == None
  {
    var lobby := Lobby(button);
    assert lobby[1..][1..] == [];
  }

  /** Starting the game takes the start button away and no entity; the lobby
      shows no entity at all. */
  lemma LayersAndEntities(action: int, ss: seq<Sprite>, button: (int, int), id: nat)
    ensures Lookup(Layers(action, ss, button), id) == if action == GAME_NOT_STARTED then None else Lookup(ss, id)
  {
    hide Lookup, Lobby;
    LobbyIsEmpty(button, id);
    var i := Find(ss, START_BUTTON_ID);
    if i < |ss| { FindWithoutOne(ss, i, id); }
  }

  lemma ClickedAndEntities(ss: seq<Sprite>, id: nat)
    ensures Lookup(Clicked(ss), id) == Lookup(ss, id)
  {
    hide Lookup;
    if Clicked(ss) != ss {
      var n := |ss| - 1;
      FindWithoutOne(ss, n, id);
      assert ss[..n] + ss[n + 1..] == ss[..n];
    }
  }

  /** What a frame makes of one identifier depends on nothing else shown before. */
  lemma PlayIsPointwise(ss: seq<Sprite>, ts: seq<Sprite>, ps: seq<Packet>, id: int)
    requires Lookup(ss, id) == Lookup(ts, id)
    ensures Lookup(Play(ss, ps), id) == Lookup(Play(ts, ps), id)
  {
    hide Lookup, Play;
    LookupPlay(ss, ps, id);
    LookupPlay(ts, ps, id);
  }

  // ----- Delivery independence -----

  /** Every frame text that arrives is the published text of its number; numbers are not negative. */
  ghost predicate Faithful(steps: seq<Step>, published: map<int, seq<Packet>>) {
    forall i :: 0 <= i < |steps| ==> FaithfulStep(steps[i], published)
  }

  ghost predicate FaithfulStep(step: Step, published: map<int, seq<Packet>>) {
    step.Arrive? && ':' in step.text && ParseFrame(step.text).Some? ==>
      var f := ParseFrame(step.text).value;
      0 <= f.id && f.id in published && published[f.id] == f.packets
  }

  /** The numbers of the frames that have arrived. */
  function Numbers(steps: seq<Step>): set<int> {
    if steps == [] then {}
    else
      Numbers(steps[..|steps| - 1]) +
      match steps[|steps| - 1]
      case Arrive(text) => if ':' in text && ParseFrame(text).Some? then {ParseFrame(text).value.id} else {}
      case _ => {}
  }

  /** The published frames from `a` up to but not including `b`, played in order. */
  function PlayRange(ss: seq<Sprite>, published: map<int, seq<Packet>>, a: int, b: int): seq<Sprite>
    decreases b - a
  {
    if b <= a || b - 1 !in published then ss else Play(PlayRange(ss, published, a, b - 1), published[b - 1])
  }

  lemma FaithfulFront(steps: seq<Step>, published: map<int, seq<Packet>>)
    requires Faithful(steps, published) && steps != []
    ensures Faithful(steps[..|steps| - 1], published) && FaithfulStep(steps[|steps| - 1], published)
  {
    var front := steps[..|steps| - 1];
    assert forall i :: 0 <= i < |front| ==> front[i] == steps[i];
  }

  /** The frames stored are the published ones that have arrived, whatever the
      order and the number of copies. */
  lemma {:induction false} FramesAreThoseArrived(v: Viewer, steps: seq<Step>, published: map<int, seq<Packet>>)
    requires Blank(v) && Allowed(v, steps) && Faithful(steps, published)
    ensures Numbers(steps) <= published.Keys
    ensures After(v, steps).frames == map n | n in Numbers(steps) :: published[n]
    ensures After(v, steps).last == -1 <==> Numbers(steps) == {}
    ensures forall n :: n in Numbers(steps) ==> 0 <= n
  {
    hide ParseFrame, Do, Possible, Faithful, Select;
    if steps != [] {
      var front := steps[..|steps| - 1];
      FaithfulFront(steps, published);
      FramesAreThoseArrived(v, front, published);
      DoMoves(After(v, front), steps[|steps| - 1]);
    }
  }

  /** What a step does to everything but the sprites and the control packet. */
  lemma DoMoves(v: Viewer, step: Step)
    requires Possible(v, step)
    ensures var u := Do(v, step);
            match step
            case Arrive(text) => u == Receive(v, text) && u.cursor == v.cursor && u.sprites == v.sprites
            case Loop(fired, button) =>
              var c, plays := Select(v).cursor, fired && v.frames != map[];
              && u.frames == v.frames && u.last == v.last
              && (plays ==> c in v.frames && u.cursor == c + 1
                            && u.sprites == Play(Prepared(v, button).sprites, v.frames[c]))
              && (!plays ==> u.cursor == c && u.sprites == Prepared(v, button).sprites)
            case _ => u.frames == v.frames && u.last == v.last && u.cursor == v.cursor
  {
    hide ParseFrame, Obeyed, Play, Layers, Lobby, Clicked;
  }

  lemma SelectIs(v: Viewer)
    ensures var c := Select(v).cursor;
            if v.last != -1 && v.cursor == -1 && v.frames != map[] then c in v.frames else c == v.cursor
  {
  }

  /** How the playhead, the start of playback and the last clearing lie. */
  lemma {:induction false} Playhead(v: Viewer, steps: seq<Step>, published: map<int, seq<Packet>>)
    requires Blank(v) && Allowed(v, steps) && Faithful(steps, published)
    ensures var c, first, from := After(v, steps).cursor, Begun(v, steps), From(v, steps);
            && (c == -1 <==> first == -1) && (c == -1 <==> from == -1)
            && (first != -1 ==> 0 <= first <= from <= c && first in Numbers(steps))
            && (first != -1 ==> forall n :: first <= n < c ==> n in Numbers(steps))
            && (!Wiped(v, steps) ==> from == first)
  {
    hide ParseFrame, Do, Possible, Faithful, Select, Receive;
    if steps != [] {
      var front := steps[..|steps| - 1];
      FaithfulFront(steps, published);
      FramesAreThoseArrived(v, front, published);
      Playhead(v, front, published);
      DoMoves(After(v, front), steps[|steps| - 1]);
      SelectIs(After(v, front));
    }
  }

  /** The sprites the client started from at the last clearing. */
  ghost function Base(v: Viewer, steps: seq<Step>): seq<Sprite>
    requires Allowed(v, steps)
  {
    if Wiped(v, steps) then [] else v.sprites
  }

  /** A turn of the loop up to its frame clock. */
  lemma PreparedShows(v: Viewer, button: (int, int), id: nat)
    ensures Lookup(Prepared(v, button).sprites, id)
            == if v.held.action == GAME_NOT_STARTED then None else Lookup(v.sprites, id)
  {
    hide Lookup, Layers;
    LayersAndEntities(v.held.action, v.sprites, button, id);
  }

  /** Delivery independence: the entities shown are those of the published frames
      from the last clearing, or the start of playback, to the playhead, played once
      each and in order, whatever order and how many times they arrived in. */
  lemma {:induction false} DeliveryIndependence(v: Viewer, steps: seq<Step>, published: map<int, seq<Packet>>, id: nat)
    requires Blank(v) && Allowed(v, steps) && Faithful(steps, published)
    ensures var w := After(v, steps);
            Lookup(w.sprites, id) == Lookup(PlayRange(Base(v, steps), published, From(v, steps), w.cursor), id)
  {
    hide ParseFrame, Do, Possible, Faithful, Select, Receive, Numbers, Lookup, Prepared, Play;
    if steps != [] {
      var front, step := steps[..|steps| - 1], steps[|steps| - 1];
      var w := After(v, front);
      FaithfulFront(steps, published);
      FramesAreThoseArrived(v, front, published);
      Playhead(v, front, published);
      Playhead(v, steps, published);
      DeliveryIndependence(v, front, published, id);
      DoMoves(w, step);
      SelectIs(w);
      match step {
        case Arrive(_) =>
        case Loop(fired, button) => LoopShows(v, front, published, fired, button, id);
        case _ => KeysShow(w, step, id);
      }
      NothingShown(id);
    }
  }

  lemma KeysShow(v: Viewer, step: Step, id: nat)
    requires step.Escape? || step.Click?
    ensures Lookup(Do(v, step).sprites, id) == if step.Escape? then None else Lookup(v.sprites, id)
  {
    hide Lookup, Lobby, Clicked;
    match step {
      case Escape(button) => LobbyIsEmpty(button, id);
      case Click => ClickedAndEntities(v.sprites, id);
    }
  }

  lemma LoopShows(v: Viewer, front: seq<Step>, published: map<int, seq<Packet>>, fired: bool, button: (int, int),
                  id: nat)
    requires Blank(v) && Allowed(v, front) && Faithful(front, published)
    requires Possible(After(v, front), Loop(fired, button))
    requires var w := After(v, front);
             Lookup(w.sprites, id) == Lookup(PlayRange(Base(v, front), published, From(v, front), w.cursor), id)
    ensures var w, step := After(v, front), Loop(fired, button);
            var base := if Wipes(w, step) then [] else Base(v, front);
            var from := if w.cursor == -1 || Wipes(w, step) then Select(w).cursor else From(v, front);
            Lookup(Do(w, step).sprites, id) == Lookup(PlayRange(base, published, from, Do(w, step).cursor), id)
  {
    hide ParseFrame, Do, Possible, Faithful, Select, Receive, Numbers, Lookup, Prepared, Play;
    var w, step := After(v, front), Loop(fired, button);
    FramesAreThoseArrived(v, front, published);
    Playhead(v, front, published);
    DoMoves(w, step);
    SelectIs(w);
    NothingShown(id);
    PreparedShows(w, button, id);
    var base := if Wipes(w, step) then [] else Base(v, front);
    var from := if w.cursor == -1 || Wipes(w, step) then Select(w).cursor else From(v, front);
    var before := PlayRange(base, published, from, Select(w).cursor);
    if fired && w.frames != map[] {
      PlayIsPointwise(Prepared(w, button).sprites, before, w.frames[Select(w).cursor], id);
    }
  }

  lemma NothingShown(id: int)
    ensures Lookup([], id) == None
  {
  }

  /** Two clients of one server that were last cleared, or began, at the same frame
      and have played as far show the same entities, however differently the
      network treated them. */
  lemma SameShow(v: Viewer, one: seq<Step>, other: seq<Step>, published: map<int, seq<Packet>>, id: nat)
    requires Blank(v)
    requires Allowed(v, one) && Faithful(one, published) && Allowed(v, other) && Faithful(other, published)
    requires From(v, one) == From(v, other) && (Wiped(v, one) <==> Wiped(v, other))
    requires After(v, one).cursor == After(v, other).cursor
    ensures Lookup(After(v, one).sprites, id) == Lookup(After(v, other).sprites, id)
    ensures Numbers(one) == Numbers(other) ==> After(v, one).frames == After(v, other).frames
  {
    hide Lookup, PlayRange;
    DeliveryIndependence(v, one, published, id);
    DeliveryIndependence(v, other, published, id);
    FramesAreThoseArrived(v, one, published);
    FramesAreThoseArrived(v, other, published);
  }

  // ----- How far playback gets -----

  /** Playback passes a frame if and only if it was published and has arrived: the
      turn after it is possible exactly then, and takes the playhead past it. */
  lemma PassesExactlyWhatArrived(v: Viewer, steps: seq<Step>, published: map<int, seq<Packet>>, button: (int, int))
    requires Blank(v) && Allowed(v, steps) && Faithful(steps, published) && Begun(v, steps) != -1
    ensures var n, turn := After(v, steps).cursor, Loop(true, button);
            && (Possible(After(v, steps), turn) <==> n in Numbers(steps))
            && (n in Numbers(steps) ==> n in published && Do(After(v, steps), turn).cursor == n + 1)
  {
    hide ParseFrame, Do, Faithful, Select, Receive, Layers;
    var w := After(v, steps);
    FramesAreThoseArrived(v, steps, published);
    Playhead(v, steps, published);
    assert Begun(v, steps) in w.frames;
    SelectIs(w);
    PreparedIs(w, button);
    if w.cursor in Numbers(steps) { DoMoves(w, Loop(true, button)); }
  }

  lemma PreparedIs(v: Viewer, button: (int, int))
    ensures Prepared(v, button).frames == v.frames && Prepared(v, button).cursor == Select(v).cursor
  {
  }

  /** A number that was never published is never passed. */
  lemma GapIsNeverPassed(v: Viewer, steps: seq<Step>, published: map<int, seq<Packet>>, gap: int)
    requires Blank(v) && Allowed(v, steps) && Faithful(steps, published)
    requires gap !in published && 0 <= Begun(v, steps) <= gap
    ensures After(v, steps).cursor <= gap
  {
    FramesAreThoseArrived(v, steps, published);
    Playhead(v, steps, published);
  }

  /** The first frame must not arrive inside a turn, between the choice of the
      number playback starts from and the frame clock: the client would look for the
      frame -1. Any other text may. */
  lemma FirstFrameInsideTurn(v: Viewer, text: string, button: (int, int))
    requires Blank(v) && (':' in text && ParseFrame(text).Some? ==> 0 <= ParseFrame(text).value.id)
    ensures CanPlay(Receive(Prepared(v, button), text)) <==> !(':' in text && ParseFrame(text).Some?)
  {
    hide ParseFrame, Layers, Obeyed;
  }

  // ----- Control packets, number by number -----

  /** A text without a frame is held until the next turn if it says that the game
      starts (3), runs (30) or has not started (31); nothing else is held. */
  lemma HeldExactlyWhen(v: Viewer, text: string)
    requires ':' !in text && text != "" && ParseFields(text).Some?
    ensures var p := ParseFields(text).value;
            Receive(v, text).held == if p.action == 3 || p.action == 30 || p.action == 31 then p else v.held
  {
    hide ParseFields;
  }

  /** The next turn: at 31 there is the background (-100) under the start button (-101)
      and nothing else, at 3 the first start button is gone and nothing else. */
  lemma ObeyedExactly(before: seq<Sprite>, after: seq<Sprite>, action: int, button: (int, int))
    requires forall i :: 0 <= i < |before| ==> before[i].id != -101
    ensures var s := Sprite(-101, button.0, button.1, StartButtonSprite);
            && Layers(31, before + [s] + after, button) == [Sprite(-100, 0, 0, BackgroundSprite), s]
            && Layers(3, before + [s] + after, button) == before + after
            && Layers(3, before, button) == before
            && (action != 3 && action != 31 ==> Layers(action, before, button) == before)
  {
    var s := Sprite(-101, button.0, button.1, StartButtonSprite);
    var ss := before + [s] + after;
    FindFirst(before, s, after);
    NotFound(before, -101);
    assert ss[..|before|] == before && ss[|before| + 1..] == after;
  }

  lemma FindFirst(before: seq<Sprite>, s: Sprite, after: seq<Sprite>)
    requires forall i :: 0 <= i < |before| ==> before[i].id != s.id
    ensures Find(before + [s] + after, s.id) == |before|
  {
    hide Find;
    var ss := before + [s] + after;
    assert ss[|before|] == s;
    forall j | 0 <= j < |before| ensures ss[j].id != s.id {
      assert ss[j] == before[j];
    }
  }

  lemma NotFound(ss: seq<Sprite>, id: int)
    requires forall i :: 0 <= i < |ss| ==> ss[i].id != id
    ensures Find(ss, id) == |ss|
  {
    hide Find;
    var i := Find(ss, id);
  }

  /** A click on the lobby takes the button away, as the start of the game does. */
  lemma ClickIsStart(button: (int, int))
    ensures Clicked(Lobby(button)) == Layers(3, Lobby(button), button) == [Sprite(-100, 0, 0, BackgroundSprite)]
  {
    var s := Sprite(-101, button.0, button.1, StartButtonSprite);
    ObeyedExactly([Sprite(-100, 0, 0, BackgroundSprite)], [], 3, button);
    assert Lobby(button) == [Sprite(-100, 0, 0, BackgroundSprite)] + [s] + [];
  }

  /** Playback starts with the lowest number there is, in the first turn after a frame
      has arrived, and the number is never chosen again. */
  lemma StartsWithLowest(v: Viewer, button: (int, int))
    ensures var n := Prepared(v, button).cursor;
            if v.cursor == -1 && v.last != -1 && v.frames != map[]
            then n in v.frames && forall k :: k in v.frames ==> n <= k
            else n == v.cursor
  {
    hide Layers;
  }

  /** Of the copies of a frame the first stays; whichever comes is the last received. */
  lemma FirstCopyStays(v: Viewer, text: string)
    requires ':' in text && ParseFrame(text).Some?
    ensures var f, w := ParseFrame(text).value, Receive(v, text);
            && (forall k :: k in w.frames <==> k in v.frames || k == f.id)
            && (forall k :: k in v.frames ==> w.frames[k] == v.frames[k])
            && (f.id !in v.frames ==> w.frames[f.id] == f.packets)
            && w.last == f.id && w.cursor == v.cursor && w.sprites == v.sprites && w.held == v.held
  {
    hide ParseFrame;
  }

  /** A control packet is obeyed once: the turns after it change no sprite until
      another one has arrived. */
  lemma ObeyedOnce(v: Viewer, button: (int, int), other: (int, int))
    ensures var w := Prepared(v, button); Prepared(w, other).sprites == w.sprites
  {
  }
}

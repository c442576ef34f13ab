/** The client as an object that is changed in place. */
module ClientModel {
  import opened Options
  import opened Text
  import opened Protocol
  import opened Playback
  import opened Delivery

  /** The queue has `n` messages more, each of them the byte 34 and the number of a frame. */
  ghost predicate Acknowledged(before: seq<string>, queue: seq<string>, frame: int, n: nat) {
    && |queue| == |before| + n && queue[..|before|] == before
    && forall i :: |before| <= i < |queue| ==> queue[i] == [34 as char] + ";" + IntText(frame)
  }

  /** What a text makes the client queue: one acknowledgement for each mark of a frame. */
  ghost predicate Answered(before: seq<string>, queue: seq<string>, text: string) {
    if ':' in text && ParseFrame(text).Some?
    then Acknowledged(before, queue, ParseFrame(text).value.id, ParseFrame(text).value.marks)
    else queue == before
  }

  /** What one piece of a frame body parses to. */
  function Piecewise(segment: string): seq<Packet> {
    match ParseFields(segment) case Some(p) => [p] case None => []
  }

  class Client {
    var sprites: seq<Sprite>
    var frameMap: map<int, seq<Packet>>
    var sendQueue: seq<string>
    var currentFrameIndex: int
    var lastReceivedFrameId: int
    var packetLossCount: int
    var winGame: bool
    var gameStatePacket: Packet

    ghost function View(): Viewer
      reads this
    {
      Viewer(frameMap, currentFrameIndex, lastReceivedFrameId, sprites, gameStatePacket)
    }

    /** The last frame received is in the map. */
    predicate Valid()
      reads this
    {
      lastReceivedFrameId != -1 ==> lastReceivedFrameId in frameMap
    }

    constructor ()
      ensures Valid() && View() == Viewer(map[], -1, -1, [], NO_PACKET) && sendQueue == [] && !winGame
    {
      sprites, frameMap, sendQueue, currentFrameIndex, lastReceivedFrameId := [], map[], [], -1, -1;
      packetLossCount, winGame, gameStatePacket := 0, false, NO_PACKET;
    }

    // ----- Streams -----

    /** `getline` on what is left of a stream: the piece up to the delimiter and
        what is left behind it. */
    static method GetLine(stream: string, d: char) returns (more: bool, piece: string, rest: string)
      ensures more <==> stream != ""
      ensures more ==> Split(stream, d) == [piece] + Split(rest, d)
      ensures piece == stream[..IndexOf(stream, d)]
      ensures rest == if d in stream then stream[IndexOf(stream, d) + 1..] else ""
      ensures more ==> |rest| < |stream|
    {
      var i := 0;
      while i < |stream| && stream[i] != d
        invariant i <= |stream|
        invariant forall j :: 0 <= j < i ==> stream[j] != d
      {
        i := i + 1;
      }
      IndexOfIs(stream, d, i);
      assert i == |stream| ==> stream[..i] == stream && [stream] + Split("", d) == [stream];
      more, piece := stream != "", stream[..i];
      rest := if i < |stream| then stream[i + 1..] else "";
    }

    /** The fields of a sub-packet, or `None` where an error is reported. */
    static method ParseSubpacket(segment: string) returns (p: Option<Packet>)
      ensures p == ParseFields(segment)
    {
      hide ReadInt, ReadFix, Split, IndexOf;
      var elements, stream := [], segment;
      var more, field, rest := GetLine(stream, ';');
      while more
        invariant more <==> stream != ""
        invariant more ==> Split(stream, ';') == [field] + Split(rest, ';') && |rest| < |stream|
        invariant elements + Split(stream, ';') == Split(segment, ';')
        decreases |stream|
      {
        elements, stream := elements + [field], rest;
        more, field, rest := GetLine(stream, ';');
      }
      SplitNothing(';');
      assert elements == Split(segment, ';');
      if |elements| != 4 {
        return None;
      }
      var id, x, y := ReadInt(elements[1]), ReadFix(elements[2]), ReadFix(elements[3]);
      if id == None || x == None || y == None {
        return None;
      }
      SplitSome(segment, ';');
      p := Some(Packet(segment[0] as int % 256, id.value, x.value, y.value));
    }

    // ----- Parsers -----

    method ParseMessage(packetData: string)
      requires Valid()
      modifies this`frameMap, this`lastReceivedFrameId, this`packetLossCount, this`sendQueue, this`gameStatePacket
      ensures Valid() && View() == Receive(old(View()), packetData)
      ensures Answered(old(sendQueue), sendQueue, packetData)
    {
      hide ParseFrame, ParseFields;
      if packetData == "" {
        return;
      }
      if ':' in packetData {
        ParseFramePacket(packetData);
      } else {
        ParseGameStatePacket(packetData);
      }
    }

    /** One sub-packet of a frame: a mark queues an acknowledgement. */
    method TakeSubpacket(segment: string, frameId: int) returns (kept: seq<Packet>)
      modifies this`sendQueue
      ensures kept == Kept(Piecewise(segment))
      ensures Acknowledged(old(sendQueue), sendQueue, frameId, CountMarks(Piecewise(segment)))
    {
      hide ParseFields, IntText;
      kept := [];
      var p := ParseSubpacket(segment);
      KeptOfOne(Piecewise(segment));
      if p.Some? {
        if p.value.action == IMPORTANT_PACKET {
          sendQueue := sendQueue + [AckText(frameId)];
        } else {
          kept := [p.value];
        }
      }
    }

    /** The sub-packets of a frame body, one after the other. */
    method ParseSubpackets(body: string, frameId: int) returns (packets: seq<Packet>)
      modifies this`sendQueue
      ensures packets == Kept(ParseBody(body))
      ensures Acknowledged(old(sendQueue), sendQueue, frameId, CountMarks(ParseBody(body)))
    {
      hide ParseFields, ParseBody, Split, IndexOf, Kept, CountMarks, Acknowledged, Piecewise;
      packets := [];
      ghost var marks: nat := 0;
      var stream := body;
      EmptyBody();
      NoneAcknowledged(sendQueue, frameId);
      var more, segment, rest := GetLine(stream, '/');
      while more
        invariant more <==> stream != ""
        invariant more ==> Split(stream, '/') == [segment] + Split(rest, '/') && |rest| < |stream|
        invariant packets + Kept(ParseBody(stream)) == Kept(ParseBody(body))
        invariant marks + CountMarks(ParseBody(stream)) == CountMarks(ParseBody(body))
        invariant Acknowledged(old(sendQueue), sendQueue, frameId, marks)
        decreases |stream|
      {
        NextPiece(stream, segment, rest);
        ghost var before := sendQueue;
        var kept := TakeSubpacket(segment, frameId);
        MoreAcknowledged(old(sendQueue), before, sendQueue, frameId, marks, CountMarks(Piecewise(segment)));
        packets := packets + kept;
        marks := marks + CountMarks(Piecewise(segment));
        stream := rest;
        more, segment, rest := GetLine(stream, '/');
      }
    }

    method ParseFramePacket(packetData: string)
      requires Valid() && ':' in packetData
      modifies this`frameMap, this`lastReceivedFrameId, this`packetLossCount, this`sendQueue
      ensures Valid() && View() == Receive(old(View()), packetData)
      ensures Answered(old(sendQueue), sendQueue, packetData)
      ensures ParseFrame(packetData).Some? ==>
                packetLossCount == ParseFrame(packetData).value.id - (old(lastReceivedFrameId) + 1)
    {
      hide ParseFields, ParseBody, ReadInt, Split, IndexOf, ParseFrame;
      var more, header, body := GetLine(packetData, ':');
      FrameIs(packetData);
      var number := ReadInt(header);
      if number == None {
        return;
      }
      var frameId := number.value;
      var packets := ParseSubpackets(body, frameId);
      packetLossCount := frameId - (lastReceivedFrameId + 1);
      lastReceivedFrameId := frameId;
      if frameId !in frameMap {
        frameMap := frameMap[frameId := packets];
      }
    }

    method ParseGameStatePacket(packetData: string)
      requires packetData != "" && ':' !in packetData
      modifies this`gameStatePacket
      ensures gameStatePacket == Obeyed(old(gameStatePacket), packetData)
    {
      hide ParseFields;
      var p := ParseSubpacket(packetData);
      if p.Some? {
        if p.value.action == GAME_NOT_STARTED || p.value.action == GAME_START || p.value.action == GAME_STARTED {
          gameStatePacket := p.value;
        }
      }
    }

    // ----- Sprites -----

    /** `find_if` on the identifier. */
    method FindSprite(id: int) returns (i: nat)
      ensures i == Find(sprites, id)
    {
      i := 0;
      while i < |sprites| && sprites[i].id != id
        invariant i <= |sprites|
        invariant forall j :: 0 <= j < i ==> sprites[j].id != id
      {
        i := i + 1;
      }
    }

    method CreateSprite(frame: seq<Packet>)
      modifies this`sprites
      ensures sprites == CreateAll(old(sprites), frame)
    {
      for i := 0 to |frame|
        invariant sprites == CreateAll(old(sprites), frame[..i])
      {
        assert frame[..i + 1][..i] == frame[..i];
        var p := frame[i];
        var look := ActionToSpriteType(p.action);
        if look.Some? {
          var k := FindSprite(p.id);
          if k == |sprites| {
            sprites := sprites + [Sprite(p.id, p.x, p.y, look.value)];
          }
        }
      }
      assert frame[..|frame|] == frame;
    }

    /** `remove_if` on the identifier, then `erase`. */
    method RemoveSprites(id: int)
      modifies this`sprites
      ensures sprites == Without(old(sprites), id)
    {
      hide Without;
      var kept, i := [], 0;
      WithoutNothing(id);
      assert sprites[0..] == sprites;
      while i < |sprites|
        invariant i <= |sprites|
        invariant sprites == old(sprites)
        invariant kept + Without(sprites[i..], id) == Without(sprites, id)
      {
        WithoutStep(sprites, i, id);
        if sprites[i].id != id {
          kept := kept + [sprites[i]];
        }
        i := i + 1;
      }
      assert sprites[i..] == [] && kept + [] == kept;
      sprites := kept;
    }

    method DestroySprite(frame: seq<Packet>)
      modifies this`sprites
      ensures sprites == DeleteAll(old(sprites), frame)
    {
      for i := 0 to |frame|
        invariant sprites == DeleteAll(old(sprites), frame[..i])
      {
        assert frame[..i + 1][..i] == frame[..i];
        if frame[i].action == DELETE {
          RemoveSprites(frame[i].id);
        }
      }
      assert frame[..|frame|] == frame;
    }

    method UpdateSpritePosition(frame: seq<Packet>)
      modifies this`sprites
      ensures sprites == MoveAll(old(sprites), frame)
    {
      for i := 0 to |frame|
        invariant sprites == MoveAll(old(sprites), frame[..i])
      {
        assert frame[..i + 1][..i] == frame[..i];
        var p := frame[i];
        if p.action == CHANGE {
          var k := FindSprite(p.id);
          if k < |sprites| {
            sprites := sprites[k := sprites[k].(x := p.x, y := p.y)];
          }
        }
      }
      assert frame[..|frame|] == frame;
    }

    method CheckWinCondition(frame: seq<Packet>)
      modifies this`winGame
      ensures winGame <==> old(winGame) || exists i :: 0 <= i < |frame| && frame[i].action == WIN
    {
      for i := 0 to |frame|
        invariant winGame <==> old(winGame) || exists j :: 0 <= j < i && frame[j].action == WIN
      {
        if frame[i].action == WIN {
          winGame := true;
        }
      }
    }

    method InitLobbySprites(button: (int, int))
      modifies this`sprites
      ensures sprites == Lobby(button)
    {
      sprites := [];
      sprites := sprites + [Sprite(BACKGROUND_ID, 0, 0, BackgroundSprite)];
      sprites := sprites + [Sprite(START_BUTTON_ID, button.0, button.1, StartButtonSprite)];
    }

    method UpdateGameStateLayers(button: (int, int))
      modifies this`sprites, this`gameStatePacket
      ensures sprites == Layers(old(gameStatePacket).action, old(sprites), button)
      ensures gameStatePacket == old(gameStatePacket).(action := -1)
    {
      if gameStatePacket.action == GAME_NOT_STARTED {
        InitLobbySprites(button);
      } else if gameStatePacket.action == GAME_START {
        var i := 0;
        while i < |sprites|
          invariant i <= |sprites| && sprites == old(sprites)
          invariant forall j :: 0 <= j < i ==> sprites[j].id != START_BUTTON_ID
        {
          if sprites[i].id == START_BUTTON_ID {
            sprites := sprites[..i] + sprites[i + 1..];
            break;
          }
          i := i + 1;
        }
      }
      gameStatePacket := gameStatePacket.(action := -1);
    }

    // ----- The main loop -----

    /** `frameMap.begin()->first`. */
    method FirstKey() returns (k: int)
      requires frameMap != map[]
      ensures k == Least(frameMap.Keys)
    {
      hide Least;
      assert Least(frameMap.Keys) in frameMap;
      var rest := frameMap.Keys;
      k :| k in rest;
      rest := rest - {k};
      while rest != {}
        invariant k in frameMap && rest <= frameMap.Keys
        invariant forall j :: j in frameMap ==> j in rest || k <= j
        decreases |rest|
      {
        var j :| j in rest;
        if j < k {
          k := j;
        }
        rest := rest - {j};
      }
    }

    /** One turn of the main loop; the frame to be played must have arrived. */
    method MainLoopTurn(fired: bool, button: (int, int))
      requires Valid() && Possible(View(), Loop(fired, button))
      modifies this`sprites, this`currentFrameIndex, this`winGame, this`gameStatePacket
      ensures Valid() && View() == Do(old(View()), Loop(fired, button))
      ensures var n := Select(old(View())).cursor;
              winGame <==> old(winGame)
                           || (fired && n in frameMap && exists p :: p in frameMap[n] && p.action == WIN)
    {
      hide Least, Find, Lobby, CreateAll, DeleteAll, MoveAll;
      if lastReceivedFrameId != -1 && currentFrameIndex == -1 {
        currentFrameIndex := FirstKey();
      }
      assert View() == Select(old(View()));
      UpdateGameStateLayers(button);
      assert View() == Prepared(old(View()), button);
      if fired && frameMap != map[] {
        var currentFrame := frameMap[currentFrameIndex];
        CreateSprite(currentFrame);
        DestroySprite(currentFrame);
        UpdateSpritePosition(currentFrame);
        CheckWinCondition(currentFrame);
        currentFrameIndex := currentFrameIndex + 1;
      }
    }

    /** The Escape key: back to the lobby, and the server is told. */
    method EscapePressed(button: (int, int))
      modifies this`sprites, this`sendQueue
      ensures View() == Do(old(View()), Escape(button))
      ensures sendQueue == old(sendQueue) + [[15 as char]]
    {
      InitLobbySprites(button);
      sendQueue := sendQueue + [[GAME_END as char]];
    }

    /** A mouse press: on the lobby it starts the game, elsewhere it shoots. */
    method MousePressed(x: int, y: int)
      modifies this`sprites, this`sendQueue
      ensures View() == Do(old(View()), Click)
      ensures var ss := old(sprites);
              sendQueue == old(sendQueue)
                           + if ss == [] then []
                             else if ss[|ss| - 1].id == START_BUTTON_ID then [[3 as char]]
                             else [[6 as char] + ";" + IntText(x) + ";" + IntText(y)]
    {
      hide IntText;
      if sprites != [] {
        if sprites[|sprites| - 1].id == START_BUTTON_ID {
          sendQueue := sendQueue + [[GAME_START as char]];
          sprites := sprites[..|sprites| - 1];
        } else {
          sendQueue := sendQueue + [[PLAYER_SHOOT as char] + ";" + IntText(x) + ";" + IntText(y)];
        }
      }
    }

    /** One step of the delivery model, done by the object. */
    method Take(step: Step)
      requires Valid() && Possible(View(), step)
      modifies this
      ensures Valid() && View() == Do(old(View()), step)
    {
      hide Receive, Layers, Prepared, PlayNext, CanPlay;
      match step {
        case Arrive(text) => ParseMessage(text);
        case Loop(fired, button) => MainLoopTurn(fired, button);
        case Escape(button) => EscapePressed(button);
        case Click => MousePressed(0, 0);
      }
    }

    /** Any run of steps: the object goes exactly where the delivery model goes. */
    method Watch(steps: seq<Step>)
      requires Valid() && Allowed(View(), steps)
      modifies this
      ensures Valid() && View() == After(old(View()), steps)
    {
      hide Possible, Do;
      ghost var v := View();
      for i := 0 to |steps|
        invariant Valid() && AllowedFront(v, steps, i) && View() == After(v, steps[..i])
      {
        AllowedNext(v, steps, i);
        Take(steps[i]);
      }
      assert steps[..|steps|] == steps;
    }
  }

  ghost predicate AllowedFront(v: Viewer, steps: seq<Step>, i: nat) { i <= |steps| && Allowed(v, steps[..i]) }

  lemma {:induction false} AllowedPrefix(v: Viewer, steps: seq<Step>, i: nat)
    requires Allowed(v, steps) && i <= |steps|
    ensures Allowed(v, steps[..i])
    decreases |steps|
  {
    hide Possible;
    if i == |steps| {
      assert steps[..i] == steps;
    } else {
      assert steps[..|steps| - 1][..i] == steps[..i];
      AllowedPrefix(v, steps[..|steps| - 1], i);
    }
  }

  lemma AllowedNext(v: Viewer, steps: seq<Step>, i: nat)
    requires Allowed(v, steps) && i < |steps|
    ensures Allowed(v, steps[..i]) && Possible(After(v, steps[..i]), steps[i])
    ensures Allowed(v, steps[..i + 1]) && After(v, steps[..i + 1]) == Do(After(v, steps[..i]), steps[i])
  {
    hide Possible, Do;
    AllowedPrefix(v, steps, i);
    AllowedPrefix(v, steps, i + 1);
    assert steps[..i + 1][..i] == steps[..i];
  }

  lemma WithoutNothing(id: int)
    ensures Without([], id) == []
  {
  }

  lemma WithoutStep(ss: seq<Sprite>, i: nat, id: int)
    requires i < |ss|
    ensures Without(ss[i..], id) == (if ss[i].id == id then [] else [ss[i]]) + Without(ss[i + 1..], id)
  {
    assert ss[i..][1..] == ss[i + 1..];
  }

  lemma SplitSome(s: string, d: char)
    requires |Split(s, d)| > 0
    ensures s != ""
  {
  }

  lemma FrameIs(text: string)
    requires ':' in text
    ensures var i := IndexOf(text, ':');
            var body := text[i + 1..];
            ParseFrame(text) == match ReadInt(text[..i])
                                case None => None
                                case Some(id) =>
                                  Some(ParsedFrame(id, Kept(ParseBody(body)), CountMarks(ParseBody(body))))
  {
    hide IndexOf, ReadInt, ParseBody, Kept, CountMarks;
    IndexIsThere(text, ':');
  }

  lemma IndexIsThere(text: string, d: char)
    requires d in text
    ensures IndexOf(text, d) < |text|
  {
    hide IndexOf;
    assert text[..|text|] == text;
  }

  lemma EmptyBody()
    ensures Kept(ParseBody("")) == [] && CountMarks(ParseBody("")) == 0
  {
    SplitNothing('/');
  }

  lemma NoneAcknowledged(queue: seq<string>, frame: int)
    ensures Acknowledged(queue, queue, frame, 0)
  {
  }

  lemma MoreAcknowledged(a: seq<string>, b: seq<string>, c: seq<string>, frame: int, m: nat, n: nat)
    requires Acknowledged(a, b, frame, m) && Acknowledged(b, c, frame, n)
    ensures Acknowledged(a, c, frame, m + n)
  {
    assert c[..|a|] == c[..|b|][..|a|];
    forall i | |a| <= i < |b| ensures c[i] == b[i] {
      assert c[i] == c[..|b|][i];
    }
  }

  /** One more piece of a body. */
  lemma NextPiece(stream: string, segment: string, rest: string)
    requires Split(stream, '/') == [segment] + Split(rest, '/')
    ensures Kept(ParseBody(stream)) == Kept(Piecewise(segment)) + Kept(ParseBody(rest))
    ensures CountMarks(ParseBody(stream)) == CountMarks(Piecewise(segment)) + CountMarks(ParseBody(rest))
  {
    hide ParseFields, Split, Kept, CountMarks;
    assert Split(stream, '/')[1..] == Split(rest, '/');
    KeptAppend(Piecewise(segment), ParseBody(rest));
  }
}

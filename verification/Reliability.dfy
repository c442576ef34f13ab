/** Marks, acknowledgements and resending: what the acknowledgement loop does for
    every frame, and that no frame is ever stored to be sent again. */
module Reliability {
  import opened Options
  import opened Text
  import opened Protocol
  import opened World
  import opened Rules
  import opened Replication
  import opened ClientModel
  import opened ServerModel
  import opened Marker
  import opened Senders

  /** The creations and deletions among some events. */
  function Announcements(es: seq<Event>): nat {
    if es == [] then 0
    else Announcements(es[..|es| - 1]) + if es[|es| - 1].Create? || es[|es| - 1].Delete? then 1 else 0
  }

  lemma {:induction false} MarksFollow(es: seq<Event>, n: nat)
    requires Marked(es) && n < |es|
    ensures Marks(es[..n + 1]) == Announcements(es[..n])
  {
    assert es[..n + 1][..n] == es[..n];
    if n == 0 {
      assert es[..1][0] != Important;
      assert Marks(es[..1]) == Marks(es[..0]);
    } else {
      MarksFollow(es, n - 1);
      assert es[..n][..n - 1] == es[..n - 1];
      assert MarkedAt(es, n - 1);
    }
  }

  /** In a marked frame there are as many marks as creations and deletions. */
  lemma MarksCount(es: seq<Event>)
    requires Marked(es)
    ensures Marks(es) == Announcements(es)
  {
    if es != [] {
      MarksFollow(es, |es| - 1);
      assert es[..|es|] == es && MarkedAt(es, |es| - 1);
    }
  }

  lemma {:induction false} MarksAppend(a: seq<Event>, b: seq<Event>)
    ensures Marks(a + b) == Marks(a) + Marks(b)
  {
    if b == [] {
      assert a + b == a;
    } else {
      assert (a + b)[..|a + b| - 1] == a + b[..|b| - 1];
      MarksAppend(a, b[..|b| - 1]);
    }
  }

  lemma {:induction false} NoMarks(es: map<int, Entity>, cache: Cache, n: nat)
    ensures Marks(Dump(es, n)) == 0 && Marks(Changes(es, cache, n)) == 0
  {
    if n > 0 {
      NoMarks(es, cache, n - 1);
      NextEntity(es, cache, n - 1);
      var d, c := Dump(es, n), Changes(es, cache, n);
      assert d == Dump(es, n - 1) || d[..|d| - 1] == Dump(es, n - 1);
      assert c == Changes(es, cache, n - 1) || c[..|c| - 1] == Changes(es, cache, n - 1);
    }
  }

  /** A sent frame has the marks of its update and no others. */
  lemma SentMarks(g: Game, cache: Cache, newcomer: bool)
    requires Marked(g.frame)
    ensures Marks(Sent(g, cache, newcomer)) == Announcements(g.frame)
  {
    hide Marked, Marks, Announcements, Dump, Changes;
    var dump := if newcomer then Dump(g.entities, g.nextId) else [];
    MarksCount(g.frame);
    NoMarks(g.entities, cache, g.nextId);
    MarksAppend(g.frame, dump);
    MarksAppend(g.frame + dump, Changes(g.entities, cache, g.nextId));
    NothingMarked();
  }

  lemma NothingMarked()
    ensures Marks([]) == 0
  {
  }

  lemma FrameIsMarked(g0: Game, g: Game)
    requires Since(g0, g)
    ensures Marked(g.frame)
  {
  }

  /** The acknowledgement loop. A client that takes in any frame the server can send
      queues as many messages as the update created and deleted entities; each goes to
      the server's handler for acknowledgements, which reads it as that frame's number. */
  lemma AckLoop(s: Sender, t: Turn, before: seq<string>, queue: seq<string>)
    requires ServerOk(s) && Int32(s.frameId) && Answered(before, queue, Message(s, t))
    ensures |queue| == |before| + Announcements(Updated(s, t).frame) && queue[..|before|] == before
    ensures forall i :: |before| <= i < |queue| ==> TypeOf(queue[i]) == 34 && ParseAck(queue[i]) == Some(s.frameId)
  {
    hide Updated, ParseFrame, FrameText, ServerOk, ParseAck, Sent, Marks, Announcements, Marked, IntText;
    hide Meanings, Since, Sound, Survives, AckText;
    TurnStep(s, t);
    var g, newcomer := Updated(s, t), t.connected > s.newest;
    FrameIsMarked(Begin(AddAll(s.game, t.arrivals)), g);
    SentMarks(g, s.cache, newcomer);
    FrameRoundTrip(s.frameId, Sent(g, s.cache, newcomer));
    AckRoundTrip(s.frameId);
    AckIs(s.frameId);
  }

  lemma AckIs(frame: int)
    ensures AckText(frame) == [34 as char] + ";" + IntText(frame)
  {
  }

  /** No frame of any run is stored for resending, although its creations and
      deletions are marked: the mark's type is the byte 33, not the text 33. */
  lemma NothingIsStored(s: Sender, t: Turn)
    requires ServerOk(s)
    ensures !Contains(Message(s, t), MARKER)
    ensures Contains(Message(s, t), Render(Important))
            <==> Important in Sent(Updated(s, t), s.cache, t.connected > s.newest)
  {
    hide Updated, Sent, FrameText;
    MarkerNeverSent(s.frameId, Sent(Updated(s, t), s.cache, t.connected > s.newest));
    IntendedTest(s.frameId, Sent(Updated(s, t), s.cache, t.connected > s.newest));
  }
}

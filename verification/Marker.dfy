/** The test that decides whether a frame is stored to be sent again: it looks for
    a text that no frame holds. */
module Marker {
  import opened Text
  import opened Protocol

  /** The text `SendFrame` looks for before it stores a frame for resending. */
  const MARKER: string := "33;-1;-1;-1/"

  predicate At(text: string, i: int, part: string) {
    0 <= i && i + |part| <= |text| && text[i..i + |part|] == part
  }

  ghost predicate Contains(text: string, part: string) { exists i :: At(text, i, part) }

  lemma FieldsArePlain(e: Event)
    ensures var (a, b, c) := Fields(e); Plain(a) && Plain(b) && Plain(c)
  {
    FieldsReadBack(e);
  }

  lemma JoinSeparators(a: string, b: string, c: string)
    requires ';' !in a && ';' !in b && ';' !in c
    ensures |Join(a, b, c)| == 2 + |a| + |b| + |c|
    ensures forall k :: 0 <= k < |Join(a, b, c)| ==>
              (Join(a, b, c)[k] == ';' <==> k == |a| || k == 1 + |a| + |b|)
  {
  }

  /** A text with exactly three separators, the first behind its first character. */
  ghost predicate ThreeSeparators(piece: string, second: nat, third: nat) {
    && 1 < second < third < |piece|
    && forall k :: 0 <= k < |piece| ==> (piece[k] == ';' <==> k == 1 || k == second || k == third)
  }

  lemma PieceSeparators(e: Event) returns (second: nat, third: nat)
    ensures ThreeSeparators(Piece(e), second, third) && Piece(e)[0] as int == Code(e)
  {
    hide Fields, Code, IntText, FixText;
    var (a, b, c) := Fields(e);
    FieldsArePlain(e);
    PlainHasNoSeparator(a); PlainHasNoSeparator(b); PlainHasNoSeparator(c);
    JoinSeparators(a, b, c);
    var joined := Join(a, b, c);
    second, third := 2 + |a|, 3 + |a| + |b|;
    assert forall k :: 2 <= k < |Piece(e)| ==> Piece(e)[k] == joined[k - 2];
  }

  lemma MarkerCharacters()
    ensures |MARKER| == 12 && MARKER[1] == '3' && MARKER[11] == '/'
    ensures forall k :: 0 <= k < 11 ==> (MARKER[k] == ';' <==> k == 2 || k == 5 || k == 8)
  {
  }

  /** The text in front of the final slash ends as the marker does, as far as it goes. */
  ghost predicate EndsLikeMarker(piece: string) {
    forall k :: 0 <= k < 11 && 11 - |piece| <= k ==> piece[k + |piece| - 11] == MARKER[k]
  }

  lemma LongTail(piece: string)
    requires EndsLikeMarker(piece) && |piece| >= 11
    ensures piece[|piece| - 9] == ';' && piece[|piece| - 6] == ';' && piece[|piece| - 3] == ';'
  {
    assert piece[2 + |piece| - 11] == MARKER[2] && piece[5 + |piece| - 11] == MARKER[5]
           && piece[8 + |piece| - 11] == MARKER[8];
  }

  lemma ShortTail(piece: string, k: nat)
    requires EndsLikeMarker(piece) && k < |piece| < 11
    ensures MARKER[k + 11 - |piece|] == piece[k]
  {
  }

  /** The only piece with three separators that ends as the marker does is its tail. */
  lemma MarkerTail(piece: string, second: nat, third: nat)
    requires ThreeSeparators(piece, second, third) && EndsLikeMarker(piece)
    ensures piece[0] == '3'
  {
    hide EndsLikeMarker;
    MarkerCharacters();
    if |piece| >= 11 {
      LongTail(piece);
    } else {
      ShortTail(piece, 0);
      ShortTail(piece, 1);
      ShortTail(piece, second);
      ShortTail(piece, third);
    }
  }

  lemma AtCharacter(text: string, i: int, part: string, k: nat)
    requires At(text, i, part) && k < |part|
    ensures text[i + k] == part[k]
  {
    assert text[i..i + |part|][k] == text[i + k];
  }

  lemma EndsWithMarker(before: string, piece: string)
    requires At(before + piece + "/", |before| + |piece| - 11, MARKER)
    ensures EndsLikeMarker(piece)
  {
    var text, i := before + piece + "/", |before| + |piece| - 11;
    forall k | 0 <= k < 11 && 11 - |piece| <= k ensures piece[k + |piece| - 11] == MARKER[k] {
      AtCharacter(text, i, MARKER, k);
      assert text[i + k] == piece[i + k - |before|];
    }
  }

  /** A text never ends with the marker when it ends with a printed packet: the
      marker's type would have to be the character 3, whose code no type has. */
  lemma NoMarkerAtEnd(before: string, e: Event)
    ensures !At(before + Render(e), |before| + |Render(e)| - 12, MARKER)
  {
    hide Render, Piece, At;
    RenderedPiece(e);
    assert before + Render(e) == before + Piece(e) + "/";
    var second, third := PieceSeparators(e);
    if At(before + Render(e), |before| + |Render(e)| - 12, MARKER) {
      EndsWithMarker(before, Piece(e));
      MarkerTail(Piece(e), second, third);
    }
  }

  lemma MarkerInFront(before: string, tail: string, i: int)
    requires At(before + tail, i, MARKER) && tail != "" && forall k :: 0 <= k < |tail| - 1 ==> tail[k] != '/'
    ensures At(before, i, MARKER) || i == |before| + |tail| - 12
  {
    var text := before + tail;
    MarkerCharacters();
    AtCharacter(text, i, MARKER, 11);
    assert forall k :: |before| <= k < |text| - 1 ==> text[k] == tail[k - |before|];
    assert i + 12 <= |before| ==> text[i..i + 12] == before[i..i + 12];
  }

  /** No frame, whatever it carries, holds the text the server looks for. */
  lemma {:induction false} MarkerNeverSent(id: int, es: seq<Event>)
    ensures !Contains(FrameText(id, es), MARKER)
  {
    hide Render, IntText, At, Piece, FrameText;
    if es == [] {
      NoSlash(id);
      if i :| At(FrameText(id, es), i, MARKER) {
        MarkerCharacters();
        AtCharacter(FrameText(id, es), i, MARKER, 11);
        InsideText(FrameText(id, es), i, MARKER, 11);
      }
    } else {
      var front, e := es[..|es| - 1], es[|es| - 1];
      MarkerNeverSent(id, front);
      FrameTextNext(id, es);
      RenderedPiece(e);
      if i :| At(FrameText(id, es), i, MARKER) {
        MarkerInFront(FrameText(id, front), Render(e), i);
        NoMarkerAtEnd(FrameText(id, front), e);
      }
    }
  }

  lemma InsideText(text: string, i: int, part: string, k: nat)
    requires At(text, i, part) && k < |part|
    ensures 0 <= i + k < |text| && text[i + k] in text
  {
  }

  lemma NoSlash(id: int)
    ensures '/' !in FrameText(id, [])
  {
    PlainHasNoSeparator(IntText(id));
  }

  lemma FrameTextNext(id: int, es: seq<Event>)
    requires es != []
    ensures FrameText(id, es) == FrameText(id, es[..|es| - 1]) + Render(es[|es| - 1])
  {
    hide Render, IntText;
  }

  /** The character of the type byte of a mark. */
  const MARK: char := IMPORTANT_PACKET as char

  lemma MarkInPiece(e: Event)
    ensures MARK in Render(e) <==> e == Important
  {
    hide Render, Fields, Code, IntText, FixText;
    RenderedPiece(e);
    var (a, b, c) := Fields(e);
    FieldsArePlain(e);
    OnlyMark(e);
    var joined := Join(a, b, c);
    assert forall d :: d in joined ==> d in a || d in b || d in c || d == ';';
    assert Piece(e) == [Code(e) as char] + [';'] + joined;
    assert Piece(e)[0] in Piece(e);
  }

  lemma OnlyMark(e: Event)
    ensures Code(e) == IMPORTANT_PACKET <==> e == Important
  {
  }

  /** The test that was meant, on the packet as it is sent, finds exactly the
      frames that carry a mark. */
  lemma {:induction false} IntendedTest(id: int, es: seq<Event>)
    ensures Contains(FrameText(id, es), Render(Important)) <==> Important in es
  {
    hide Render, IntText;
    MarkInText(id, es);
    MarkInPiece(Important);
    if i :| At(FrameText(id, es), i, Render(Important)) {
      var m := Render(Important);
      var k :| 0 <= k < |m| && m[k] == MARK;
      assert FrameText(id, es)[i..i + |m|][k] == FrameText(id, es)[i + k];
    }
    if Important in es {
      MarkIsThere(id, es);
    }
  }

  lemma {:induction false} MarkInText(id: int, es: seq<Event>)
    ensures MARK in FrameText(id, es) <==> Important in es
  {
    hide Render, IntText;
    if es == [] {
      assert MARK !in IntText(id);
    } else {
      var front, e := es[..|es| - 1], es[|es| - 1];
      MarkInText(id, front);
      MarkInPiece(e);
      assert FrameText(id, es) == FrameText(id, front) + Render(e);
      assert es == front + [e];
    }
  }

  lemma {:induction false} MarkIsThere(id: int, es: seq<Event>)
    requires Important in es
    ensures Contains(FrameText(id, es), Render(Important))
  {
    hide Render, IntText;
    var front, e := es[..|es| - 1], es[|es| - 1];
    var before, m := FrameText(id, front), Render(Important);
    assert FrameText(id, es) == before + Render(e);
    assert es == front + [e];
    if e == Important {
      assert At(FrameText(id, es), |before|, m);
    } else {
      MarkIsThere(id, front);
      var i :| At(before, i, m);
      assert (before + Render(e))[i..i + |m|] == before[i..i + |m|];
      assert At(FrameText(id, es), i, m);
    }
  }
}

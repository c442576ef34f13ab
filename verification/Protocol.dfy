/** The frame protocol: what the server prints and what the client reads back. */
module Protocol {
  import opened Options
  import opened Text

  datatype Kind = Player | Enemy | Bullet | Boss | EnemyBullet | Ball

  /** One sub-packet of a frame, before it is printed. */
  datatype Event =
    | Create(kind: Kind, id: int, x: int, y: int)
    | Delete(id: int)
    | Change(id: int, x: int, y: int)
    | Background
    | Important
    | Win

  /** One sub-packet as the client stores it. */
  datatype Packet = Packet(action: int, id: int, x: int, y: int)

  datatype ParsedFrame = ParsedFrame(id: int, packets: seq<Packet>, marks: nat)

  const GAME_START: nat := 3
  const PLAYER_SHOOT: nat := 6
  const GAME_END: nat := 15
  const CREATE_BACKGROUND: nat := 26
  const DELETE: nat := 28
  const CHANGE: nat := 29
  const GAME_STARTED: nat := 30
  const GAME_NOT_STARTED: nat := 31
  const LATENCY_CHECK: nat := 32
  const IMPORTANT_PACKET: nat := 33
  const IMPORTANT_PACKET_RECEIVED: nat := 34
  const WIN: nat := 35

  /** The packet type that creates an entity of a kind. */
  function CreateCode(kind: Kind): (c: nat)
    ensures 21 <= c <= 27 && c != CREATE_BACKGROUND
  {
    match kind
    case Ball => 21
    case Enemy => 22
    case Boss => 23
    case Player => 24
    case Bullet => 25
    case EnemyBullet => 27
  }

  function Code(e: Event): (c: nat)
    ensures 21 <= c <= WIN
  {
    match e
    case Create(kind, _, _, _) => CreateCode(kind)
    case Delete(_) => DELETE
    case Change(_, _, _) => CHANGE
    case Background => CREATE_BACKGROUND
    case Important => IMPORTANT_PACKET
    case Win => WIN
  }

  /** Three fields with their separators. */
  function Join(a: string, b: string, c: string): string { a + [';'] + (b + [';'] + c) }

  const NOTHING: string := "-1;-1;-1/"

  /** The fields of the data part handed to `createPacket`, all but the type byte. */
  function Fields(e: Event): (string, string, string) {
    match e
    case Create(_, id, x, y) => (IntText(id), FixText(x), FixText(y))
    case Change(id, x, y) => (IntText(id), FixText(x), FixText(y))
    case Delete(id) => (IntText(id), "-1", "-1")
    case Background => ("-100", "0", "0")
    case Important => ("-1", "-1", "-1")
    case Win => ("-1", "-1", "-1")
  }

  function Data(e: Event): string {
    var (a, b, c) := Fields(e);
    Join(a, b, c) + "/"
  }

  /** `createPacket`: the type byte, a separator, and the data or its default. */
  function PacketText(code: nat, data: string): string
    requires code < 256
  {
    [code as char] + [';'] + if data == "" then NOTHING else data
  }

  function Render(e: Event): string { PacketText(Code(e), Data(e)) }

  function RenderAll(es: seq<Event>): string {
    if es == [] then "" else RenderAll(es[..|es| - 1]) + Render(es[|es| - 1])
  }

  /** Four fields as they go over the wire. */
  function OnTheWire(code: nat, a: string, b: string, c: string): string
    requires code < 256
  {
    [code as char] + ";" + a + ";" + b + ";" + c + "/"
  }

  /** Every sub-packet of a frame, byte by byte: the type byte and the three fields. */
  lemma SubPackets(e: Event)
    ensures match e
            case Create(kind, id, x, y) =>
              var code := match kind
                          case Ball => 21
                          case Enemy => 22
                          case Boss => 23
                          case Player => 24
                          case Bullet => 25
                          case EnemyBullet => 27;
              Render(e) == OnTheWire(code, IntText(id), FixText(x), FixText(y))
            case Delete(id) => Render(e) == OnTheWire(28, IntText(id), "-1", "-1")
            case Change(id, x, y) => Render(e) == OnTheWire(29, IntText(id), FixText(x), FixText(y))
            case Background => Render(e) == OnTheWire(26, "-100", "0", "0")
            case Important => Render(e) == OnTheWire(33, "-1", "-1", "-1")
            case Win => Render(e) == OnTheWire(35, "-1", "-1", "-1")
  {
    hide IntText, FixText;
    var (a, b, c) := Fields(e);
    WireIsText(Code(e), a, b, c);
  }

  lemma WireIsText(code: nat, a: string, b: string, c: string)
    requires code < 256
    ensures PacketText(code, Join(a, b, c) + "/") == OnTheWire(code, a, b, c)
  {
  }

  lemma RenderAllNothing()
    ensures RenderAll([]) == ""
  {
  }

  lemma RenderAllPush(es: seq<Event>, e: Event)
    ensures RenderAll(es + [e]) == RenderAll(es) + Render(e)
  {
    hide Render;
    assert (es + [e])[..|es + [e]| - 1] == es;
  }

  lemma {:induction false} RenderAllAppend(a: seq<Event>, b: seq<Event>)
    ensures RenderAll(a + b) == RenderAll(a) + RenderAll(b)
  {
    hide Render;
    if b == [] {
      assert a + b == a;
    } else {
      assert (a + b)[..|a + b| - 1] == a + b[..|b| - 1];
      RenderAllAppend(a, b[..|b| - 1]);
    }
  }

  /** The whole text of a frame: its number, a colon, its sub-packets. */
  function FrameText(id: int, es: seq<Event>): string { IntText(id) + ":" + RenderAll(es) }

  /** The identifier field of an event; -1 where it is not relevant. */
  function IdField(e: Event): int {
    match e
    case Create(_, id, _, _) => id
    case Delete(id) => id
    case Change(id, _, _) => id
    case Background => -100
    case Important => -1
    case Win => -1
  }

  /** What an event means to the client. */
  function Meaning(e: Event): Packet {
    match e
    case Create(_, id, x, y) => Packet(Code(e), id, x, y)
    case Change(id, x, y) => Packet(CHANGE, id, x, y)
    case Background => Packet(CREATE_BACKGROUND, -100, 0, 0)
    case _ => Packet(Code(e), IdField(e), -MILLION, -MILLION)
  }

  /** The packets a list of events stands for: all but the marks, in order.
      An identifier that does not fit an `int` loses its packet. */
  function Meanings(es: seq<Event>): seq<Packet> {
    if es == [] then []
    else
      var e := es[|es| - 1];
      Meanings(es[..|es| - 1]) + if Int32(IdField(e)) && e != Important then [Meaning(e)] else []
  }

  function Marks(es: seq<Event>): nat {
    if es == [] then 0 else Marks(es[..|es| - 1]) + if es[|es| - 1] == Important then 1 else 0
  }

  // ----- The client's parsers -----

  /** The fields of one sub-packet; `None` where the client reports an error. */
  function ParseFields(text: string): Option<Packet> {
    var fields := Split(text, ';');
    if |fields| != 4 then None
    else
      match (ReadInt(fields[1]), ReadFix(fields[2]), ReadFix(fields[3]))
      case (Some(id), Some(x), Some(y)) => Some(Packet(text[0] as int % 256, id, x, y))
      case _ => None
  }

  /** The well-formed sub-packets among the pieces of a frame body, in order. */
  function ParsePieces(pieces: seq<string>): seq<Packet> {
    if pieces == [] then []
    else
      (match ParseFields(pieces[0]) case Some(p) => [p] case None => []) + ParsePieces(pieces[1..])
  }

  function ParseBody(body: string): seq<Packet> { ParsePieces(Split(body, '/')) }

  function Kept(ps: seq<Packet>): seq<Packet> {
    if ps == [] then []
    else (if ps[0].action == IMPORTANT_PACKET then [] else [ps[0]]) + Kept(ps[1..])
  }

  function CountMarks(ps: seq<Packet>): nat {
    if ps == [] then 0
    else (if ps[0].action == IMPORTANT_PACKET then 1 else 0) + CountMarks(ps[1..])
  }

  /** `parseFramePacket`: the number before the first colon, then the body. */
  function ParseFrame(text: string): Option<ParsedFrame>
    requires ':' in text
  {
    var i := IndexOf(text, ':');
    var body := if i < |text| then text[i + 1..] else "";
    match ReadInt(text[..i])
    case None => None
    case Some(id) => Some(ParsedFrame(id, Kept(ParseBody(body)), CountMarks(ParseBody(body))))
  }

  // ----- Round trip -----

  /** Four fields without separators split into themselves. */
  lemma SplitFields(head: string, a: string, b: string, c: string)
    requires ';' !in head && ';' !in a && ';' !in b && ';' !in c && c != []
    ensures Split(head + [';'] + Join(a, b, c), ';') == [head, a, b, c]
  {
    hide Split, IndexOf;
    SplitFirst(head, ';', Join(a, b, c));
    SplitFirst(a, ';', b + [';'] + c);
    SplitFirst(b, ';', c);
    SplitLast(c, ';');
  }

  lemma PlainHasNoSeparator(s: string)
    requires Plain(s)
    ensures ';' !in s && '/' !in s && ':' !in s
  {
  }

  lemma SmallTexts()
    ensures IntText(-1) == "-1" && IntText(0) == "0" && IntText(-100) == "-100"
    ensures Join("-1", "-1", "-1") + "/" == NOTHING
  {
    assert Digits(10) == "10";
  }

  /** How each field of an event is read back. */
  lemma FieldsReadBack(e: Event)
    ensures var (a, b, c) := Fields(e);
            && Plain(a) && Plain(b) && Plain(c) && c != []
            && ReadInt(a) == (if Int32(IdField(e)) then Some(IdField(e)) else None)
            && ReadFix(b) == Some(Meaning(e).x) && ReadFix(c) == Some(Meaning(e).y)
  {
    hide ReadInt, ReadFix, IntText, FixText;
    SmallTexts();
    IntRoundTrip(IdField(e));
    match e {
      case Create(_, _, x, y) => FixRoundTrip(x); FixRoundTrip(y);
      case Change(_, x, y) => FixRoundTrip(x); FixRoundTrip(y);
      case Background => IntReadAsFix(0);
      case _ => IntReadAsFix(-1);
    }
  }

  /** The text of one sub-packet, up to its slash. */
  function Piece(e: Event): string {
    var (a, b, c) := Fields(e);
    [Code(e) as char] + [';'] + Join(a, b, c)
  }

  lemma PieceIsClean(code: nat, a: string, b: string, c: string)
    requires code <= WIN && Plain(a) && Plain(b) && Plain(c)
    ensures var piece := [code as char] + [';'] + Join(a, b, c);
            && '/' !in piece && ':' !in piece
            && PacketText(code, Join(a, b, c) + "/") == piece + "/"
  {
    PlainHasNoSeparator(a); PlainHasNoSeparator(b); PlainHasNoSeparator(c);
    assert forall d: char :: d in Join(a, b, c) ==> d in a || d in b || d in c || d == ';';
  }

  /** A printed event is one piece and a slash. */
  lemma RenderedPiece(e: Event)
    ensures Render(e) == Piece(e) + "/" && '/' !in Piece(e) && ':' !in Piece(e)
  {
    var (a, b, c) := Fields(e);
    FieldsReadBack(e);
    PieceIsClean(Code(e), a, b, c);
  }

  /** Four fields parse to what they say. */
  lemma ParseFourFields(code: nat, a: string, b: string, c: string)
    requires code < 256 && code as char != ';' && ';' !in a && ';' !in b && ';' !in c && c != []
    ensures ParseFields([code as char] + [';'] + Join(a, b, c))
            == match (ReadInt(a), ReadFix(b), ReadFix(c))
               case (Some(id), Some(x), Some(y)) => Some(Packet(code, id, x, y))
               case _ => None
  {
    hide Split, ReadInt, ReadFix;
    SplitFields([code as char], a, b, c);
  }

  /** The piece parses to the event's meaning. */
  lemma PieceReadBack(e: Event)
    ensures ParseFields(Piece(e)) == if Int32(IdField(e)) then Some(Meaning(e)) else None
  {
    var (a, b, c) := Fields(e);
    FieldsReadBack(e);
    PlainHasNoSeparator(a); PlainHasNoSeparator(b); PlainHasNoSeparator(c);
    ParseFourFields(Code(e), a, b, c);
  }

  /** A body that is empty or ends with a slash. */
  ghost predicate Closed(body: string) { body != "" ==> body[|body| - 1] == '/' }

  lemma {:induction false} SplitClosed(a: string, b: string, d: char)
    requires a != "" ==> a[|a| - 1] == d
    ensures Split(a + b, d) == Split(a, d) + Split(b, d)
    decreases |a|
  {
    hide IndexOf, Split;
    if a == "" {
      assert a + b == b;
      SplitNothing(d);
    } else {
      var head, rest := CutAtFirst(a, d);
      SplitClosed(rest, b, d);
      SplitFirst(head, d, rest);
      SplitFirst(head, d, rest + b);
      Regroup(head, [d], rest, b);
    }
  }

  lemma Regroup(a: string, b: string, c: string, d: string)
    ensures (a + b + c) + d == a + b + (c + d)
  {
  }

  lemma SplitNothing(d: char)
    ensures Split("", d) == [] && ParseBody("") == []
  {
  }

  lemma CutAtFirst(a: string, d: char) returns (head: string, rest: string)
    requires a != "" && a[|a| - 1] == d
    ensures d !in head && a == head + [d] + rest
    ensures rest != "" ==> rest[|rest| - 1] == d
  {
    var i := IndexOf(a, d);
    assert forall j :: 0 <= j < i ==> a[..i][j] == a[j];
    head, rest := a[..i], a[i + 1..];
  }

  lemma {:induction false} ParsePiecesAppend(a: seq<string>, b: seq<string>)
    ensures ParsePieces(a + b) == ParsePieces(a) + ParsePieces(b)
  {
    hide ParseFields;
    if a == [] {
      assert a + b == b;
    } else {
      assert (a + b)[1..] == a[1..] + b;
      ParsePiecesAppend(a[1..], b);
    }
  }

  /** Parsing a body is a homomorphism over closed bodies. */
  lemma ParseBodyAppend(a: string, b: string)
    requires Closed(a)
    ensures ParseBody(a + b) == ParseBody(a) + ParseBody(b)
  {
    SplitClosed(a, b, '/');
    ParsePiecesAppend(Split(a, '/'), Split(b, '/'));
  }

  lemma ParseOnePiece(piece: string)
    requires '/' !in piece
    ensures ParseBody(piece + "/") == match ParseFields(piece) case Some(p) => [p] case None => []
  {
    assert piece + "/" == piece + ['/'] + "";
    SplitFirst(piece, '/', "");
    assert ParsePieces([piece][1..]) == [];
  }

  /** A malformed piece between closed bodies changes nothing: errors stay isolated. */
  lemma MalformedPieceIsolated(before: string, piece: string, after: string)
    requires Closed(before) && '/' !in piece && ParseFields(piece).None?
    ensures ParseBody(before + ((piece + "/") + after)) == ParseBody(before + after)
  {
    ParseOnePiece(piece);
    ParseBodyAppend(piece + "/", after);
    ParseBodyAppend(before, (piece + "/") + after);
    ParseBodyAppend(before, after);
  }

  lemma {:induction false} KeptAppend(a: seq<Packet>, b: seq<Packet>)
    ensures Kept(a + b) == Kept(a) + Kept(b)
    ensures CountMarks(a + b) == CountMarks(a) + CountMarks(b)
  {
    if a == [] {
      assert a + b == b;
    } else {
      assert (a + b)[1..] == a[1..] + b;
      KeptAppend(a[1..], b);
    }
  }

  lemma {:induction false} BodyRoundTrip(es: seq<Event>)
    ensures Closed(RenderAll(es))
    ensures Kept(ParseBody(RenderAll(es))) == Meanings(es)
    ensures CountMarks(ParseBody(RenderAll(es))) == Marks(es)
  {
    hide ParseFields, ParseBody, Render, Piece;
    SplitNothing('/');
    if es != [] {
      var front, e := es[..|es| - 1], es[|es| - 1];
      BodyRoundTrip(front);
      RenderedPiece(e);
      PieceReadBack(e);
      ParseBodyAppend(RenderAll(front), Render(e));
      ParseOnePiece(Piece(e));
      var last := ParseBody(Render(e));
      assert last == if Int32(IdField(e)) then [Meaning(e)] else [];
      assert Meaning(e).action == IMPORTANT_PACKET <==> e == Important;
      KeptAppend(ParseBody(RenderAll(front)), last);
      KeptOfOne(last);
    }
  }

  lemma KeptOfOne(ps: seq<Packet>)
    requires |ps| <= 1
    ensures ps == [] ==> Kept(ps) == [] && CountMarks(ps) == 0
    ensures |ps| == 1 && ps[0].action == IMPORTANT_PACKET ==> Kept(ps) == [] && CountMarks(ps) == 1
    ensures |ps| == 1 && ps[0].action != IMPORTANT_PACKET ==> Kept(ps) == ps && CountMarks(ps) == 0
  {
    if |ps| == 1 { assert ps[1..] == []; }
  }

  /** The client reads back exactly what the server printed, for every frame
      number and every list of events. */
  lemma FrameRoundTrip(id: int, es: seq<Event>)
    ensures ':' in FrameText(id, es)
    ensures ParseFrame(FrameText(id, es))
            == if Int32(id) then Some(ParsedFrame(id, Meanings(es), Marks(es))) else None
  {
    var header, body := IntText(id), RenderAll(es);
    var text := FrameText(id, es);
    assert text == header + [':'] + body && text[|header|] == ':';
    IndexOfFirst(header, ':', body);
    assert text[..|header|] == header && text[|header| + 1..] == body;
    IntRoundTrip(id);
    BodyRoundTrip(es);
  }

  /** A control packet with one integer field, as the latency check is. */
  function ControlText(code: nat, value: int): string
    requires code <= WIN
  {
    PacketText(code, Join(IntText(value), "-1", "-1/"))
  }

  lemma ControlHasNoColon(code: nat, value: int)
    requires code <= WIN
    ensures ':' !in ControlText(code, value)
  {
    PlainHasNoSeparator(IntText(value));
  }

  /** Every other message of the server goes to the other parser and is read
      back: a control packet, or a latency check with its clock value. */
  lemma ControlRoundTrip(code: nat, value: int)
    requires code <= WIN
    ensures ':' !in ControlText(code, value)
    ensures ParseFields(ControlText(code, value))
            == if Int32(value) then Some(Packet(code, value, -MILLION, -MILLION)) else None
  {
    ControlHasNoColon(code, value);
    var a := IntText(value);
    PlainHasNoSeparator(a);
    IntRoundTrip(value);
    MinusOneReadBack();
    ParseFourFields(code, a, "-1", "-1/");
  }

  /** A control packet without data carries three times -1. */
  lemma ControlDefault(code: nat)
    requires code <= WIN
    ensures PacketText(code, "") == ControlText(code, -1)
  {
    SmallTexts();
    assert Join("-1", "-1", "-1/") == Join("-1", "-1", "-1") + "/";
  }

  /** `stof` stops at the slash that a control packet leaves on its last field. */
  lemma MinusOneReadBack()
    ensures ReadFix("-1") == Some(-MILLION) && ReadFix("-1/") == Some(-MILLION)
  {
    SmallTexts();
    IntReadAsFix(-1);
    ReadSigned(true, "1", "/");
    assert "-" + "1" + "/" == "-1/";
    MillionthsOfNone();
    assert Value("1") == 1;
  }

  // ----- Acknowledgements -----

  /** What the client sends back for one mark of a frame. */
  function AckText(frame: int): string { [IMPORTANT_PACKET_RECEIVED as char] + ";" + IntText(frame) }

  /** The frame number `handleImportantPacketReceived` extracts. */
  function ParseAck(raw: string): Option<int> {
    var i := IndexOf(raw, ';');
    if i == |raw| then None else ReadInt(raw[i + 1..])
  }

  lemma AckRoundTrip(frame: int)
    ensures ParseAck(AckText(frame)) == if Int32(frame) then Some(frame) else None
  {
    var raw := AckText(frame);
    assert raw == [IMPORTANT_PACKET_RECEIVED as char] + [';'] + IntText(frame);
    IndexOfFirst([IMPORTANT_PACKET_RECEIVED as char], ';', IntText(frame));
    assert raw[2..] == IntText(frame);
    IntRoundTrip(frame);
  }
}

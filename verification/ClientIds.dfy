/** The client book of the server and its identifiers. */
module ClientIds {
  import opened Options

  datatype Endpoint = Endpoint(address: int, port: int)

  datatype ClientRegister = ClientRegister(id: int, endpoint: Endpoint)

  /** The connected clients, the queue of free identifiers, the number of identifiers ever made. */
  datatype Book = Book(clients: map<int, ClientRegister>, free: seq<int>, count: nat)

  function EmptyBook(): Book { Book(map[], [], 0) }

  /** Every identifier made is connected or free, never both, and free only once. */
  ghost predicate Partition(b: Book) {
    && (forall id :: id in b.clients ==> 0 <= id < b.count)
    && (forall id :: id in b.free ==> 0 <= id < b.count && id !in b.clients)
    && (forall id :: 0 <= id < b.count ==> id in b.clients || id in b.free)
    && Distinct(b.free)
    && |b.clients| + |b.free| == b.count
  }

  ghost predicate Distinct(s: seq<int>) { forall i, j :: 0 <= i < j < |s| ==> s[i] != s[j] }

  /** Endpoints are distinct and each record carries its key. */
  ghost predicate Registered(b: Book) {
    && (forall id :: id in b.clients ==> b.clients[id].id == id)
    && (forall c, d :: c in b.clients && d in b.clients && b.clients[c].endpoint == b.clients[d].endpoint ==> c == d)
  }

  ghost predicate Valid(b: Book) { Partition(b) && Registered(b) }

  /** The search over the clients, by identifier. */
  function FindClient(clients: map<int, ClientRegister>, e: Endpoint, n: nat): (r: Option<int>)
    ensures r.Some? ==> 0 <= r.value < n && r.value in clients && clients[r.value].endpoint == e
    ensures r.None? ==> forall id :: 0 <= id < n && id in clients ==> clients[id].endpoint != e
  {
    if n == 0 then None
    else
      var before := FindClient(clients, e, n - 1);
      if before.Some? then before
      else if n - 1 in clients && clients[n - 1].endpoint == e then Some(n - 1)
      else None
  }

  lemma {:induction false} FindClientStays(clients: map<int, ClientRegister>, e: Endpoint, m: nat, n: nat)
    requires m <= n && FindClient(clients, e, m).Some?
    ensures FindClient(clients, e, n) == FindClient(clients, e, m)
  {
    if m < n { FindClientStays(clients, e, m, n - 1); }
  }

  function IdOf(b: Book, e: Endpoint): Option<int> { FindClient(b.clients, e, b.count) }

  /** A newcomer takes the identifier freed first, or a new one. */
  function Admit(b: Book, e: Endpoint): Book {
    if b.free != [] then b.(clients := b.clients[b.free[0] := ClientRegister(b.free[0], e)], free := b.free[1..])
    else b.(clients := b.clients[b.count := ClientRegister(b.count, e)], count := b.count + 1)
  }

  /** `createClient`, and the identifier it returns. */
  function Connect(b: Book, e: Endpoint): (Book, int) {
    match IdOf(b, e)
    case Some(id) => (b, id)
    case None => (Admit(b, e), if b.free != [] then b.free[0] else b.count)
  }

  /** The identifier goes to the end of the queue. */
  function Release(b: Book, id: int): Book { b.(clients := b.clients - {id}, free := b.free + [id]) }

  /** `disconnectData`; `None` where the endpoint is unknown. */
  function Disconnect(b: Book, e: Endpoint): (Book, Option<int>) {
    match IdOf(b, e)
    case Some(id) => (Release(b, id), Some(id))
    case None => (b, None)
  }

  lemma AdmitPartition(b: Book, e: Endpoint)
    requires Partition(b)
    ensures Partition(Admit(b, e))
  {
    var c := Admit(b, e);
    if b.free != [] {
      assert b.free == [b.free[0]] + c.free;
      assert forall id :: id in b.free <==> id == b.free[0] || id in c.free;
      assert b.free[0] !in c.free;
    }
  }

  /** A known endpoint keeps its identifier and changes nothing; a new one gets an
      identifier nobody holds, and the others keep theirs. */
  lemma ConnectKeeps(b: Book, e: Endpoint)
    requires Valid(b)
    ensures var (c, id) := Connect(b, e);
            && Valid(c) && id in c.clients && c.clients[id].endpoint == e
            && (forall i :: i in b.clients ==> i in c.clients && c.clients[i] == b.clients[i])
            && (forall i :: i in c.clients && i != id ==> i in b.clients)
            && (id in b.clients <==> exists i :: i in b.clients && b.clients[i].endpoint == e)
            && (id in b.clients ==> c == b)
  {
    var (c, id) := Connect(b, e);
    if IdOf(b, e) == None {
      assert Partition(c) by { AdmitPartition(b, e); }
      assert forall i :: i in b.clients ==> b.clients[i].endpoint != e;
      assert id !in b.clients;
    }
  }

  lemma ReleasePartition(b: Book, id: int)
    requires Partition(b) && id in b.clients
    ensures Partition(Release(b, id))
  {
    var c := Release(b, id);
    assert forall i :: i in c.free <==> i in b.free || i == id;
  }

  lemma ReleaseRegistered(b: Book, id: int)
    requires Registered(b)
    ensures Registered(Release(b, id))
  {
  }

  /** A client that leaves frees its identifier and nobody else's. */
  lemma DisconnectKeeps(b: Book, e: Endpoint)
    requires Valid(b)
    ensures var (c, r) := Disconnect(b, e);
            && Valid(c)
            && (forall i :: i in c.clients <==> i in b.clients && b.clients[i].endpoint != e)
            && (forall i :: i in c.clients ==> c.clients[i] == b.clients[i])
            && (r.Some? <==> exists i :: i in b.clients && b.clients[i].endpoint == e)
            && (r.Some? ==> r.value in b.clients && b.clients[r.value].endpoint == e && c.free == b.free + [r.value])
            && (r.None? ==> c == b)
  {
    var (c, r) := Disconnect(b, e);
    if r.Some? {
      assert Valid(c) by {
        ReleasePartition(b, r.value);
        ReleaseRegistered(b, r.value);
      }
    }
  }

  /** The connected identifiers below `n`, in order. */
  function Ids(clients: map<int, ClientRegister>, n: nat): seq<int> {
    if n == 0 then [] else Ids(clients, n - 1) + if n - 1 in clients then [n - 1] else []
  }

  lemma {:induction false} IdsAreKeys(clients: map<int, ClientRegister>, n: nat)
    ensures forall id :: id in Ids(clients, n) <==> 0 <= id < n && id in clients
  {
    if n > 0 { IdsAreKeys(clients, n - 1); }
  }

  lemma {:induction false} IdsCount(clients: map<int, ClientRegister>, n: nat)
    ensures |Ids(clients, n)| == |set id | 0 <= id < n && id in clients|
  {
    var below := set id | 0 <= id < n && id in clients;
    if n == 0 {
      assert below == {};
    } else {
      IdsCount(clients, n - 1);
      var before := set id | 0 <= id < n - 1 && id in clients;
      assert below == if n - 1 in clients then before + {n - 1} else before;
    }
  }

  /** The identifiers connected in a book. */
  function Connected(b: Book): seq<int> { Ids(b.clients, b.count) }

  lemma ConnectedCount(b: Book)
    requires Partition(b)
    ensures |Connected(b)| == |b.clients|
    ensures forall id :: id in Connected(b) <==> id in b.clients
  {
    IdsAreKeys(b.clients, b.count);
    IdsCount(b.clients, b.count);
    assert (set id | 0 <= id < b.count && id in b.clients) == b.clients.Keys;
  }

  function Below(n: nat): (r: set<int>)
    ensures |r| == n && forall i :: i in r <==> 0 <= i < n
  {
    if n == 0 then {} else Below(n - 1) + {n - 1}
  }

  lemma SameSize(a: set<int>, b: set<int>)
    requires |a| == |b| && a <= b
    ensures a == b
  {
    assert b == a + (b - a) && |b - a| == 0;
  }

  /** The connected identifiers are the lowest ones exactly when no free one is below their number. */
  lemma LowestIds(b: Book)
    requires Partition(b)
    ensures (forall id :: id in b.clients ==> id < |b.clients|) <==> forall id :: id in b.free ==> |b.clients| <= id
  {
    var n := |b.clients|;
    var keys := b.clients.Keys;
    if forall id :: id in b.clients ==> id < n {
      SameSize(keys, Below(n));
      assert forall id :: id in keys <==> id in Below(n);
    }
    if forall id :: id in b.free ==> n <= id {
      assert Below(n) <= keys;
      SameSize(Below(n), keys);
      assert forall id :: id in keys <==> id in Below(n);
    }
  }

  // ----- Histories -----

  datatype Visit = Join(endpoint: Endpoint) | Leave(endpoint: Endpoint)

  function After(visits: seq<Visit>): Book {
    if visits == [] then EmptyBook()
    else
      var b := After(visits[..|visits| - 1]);
      match visits[|visits| - 1]
      case Join(e) => Connect(b, e).0
      case Leave(e) => Disconnect(b, e).0
  }

  /** The largest number of clients connected at once during a history. */
  function Peak(visits: seq<Visit>): nat {
    var now := |After(visits).clients|;
    if visits == [] then now
    else
      var before := Peak(visits[..|visits| - 1]);
      if now > before then now else before
  }

  /** In every history the book stays valid, and the number of identifiers made is
      the largest number of clients that were connected at once. */
  lemma {:induction false} CountIsPeak(visits: seq<Visit>)
    ensures Valid(After(visits)) && After(visits).count == Peak(visits)
  {
    hide Connect, Disconnect;
    if visits != [] {
      var front := visits[..|visits| - 1];
      CountIsPeak(front);
      match visits[|visits| - 1] {
        case Join(e) =>
          ConnectKeeps(After(front), e);
          ConnectCounts(After(front), e);
        case Leave(e) =>
          DisconnectKeeps(After(front), e);
          DisconnectCounts(After(front), e);
      }
    }
  }

  lemma ConnectCounts(b: Book, e: Endpoint)
    requires Valid(b)
    ensures var c := Connect(b, e).0;
            if IdOf(b, e).Some? then c == b
            else |c.clients| == |b.clients| + 1 && c.count == if b.free == [] then b.count + 1 else b.count
    ensures b.free == [] ==> b.count == |b.clients|
    ensures b.free != [] ==> |b.clients| < b.count
  {
    ConnectKeeps(b, e);
  }

  lemma DisconnectCounts(b: Book, e: Endpoint)
    requires Valid(b)
    ensures Disconnect(b, e).0.count == b.count
    ensures |Disconnect(b, e).0.clients| <= |b.clients|
  {
    DisconnectKeeps(b, e);
  }

  /** A client that leaves and one that joins leave the number of clients as it was. */
  lemma ReplacementCounts(b: Book, leaver: Endpoint, newcomer: Endpoint)
    requires Valid(b) && IdOf(b, leaver).Some?
    requires newcomer == leaver || IdOf(b, newcomer) == None
    ensures var left := Disconnect(b, leaver).0;
            |Connect(left, newcomer).0.clients| == |b.clients| && IdOf(left, newcomer) == None
  {
    var left := Disconnect(b, leaver).0;
    DisconnectKeeps(b, leaver);
    ConnectCounts(left, newcomer);
    assert forall id :: id in left.clients ==> id in b.clients && b.clients[id].endpoint != newcomer;
  }

  function ConnectAll(b: Book, es: seq<Endpoint>): Book {
    if es == [] then b else Connect(ConnectAll(b, es[..|es| - 1]), es[|es| - 1]).0
  }

  /** Freed identifiers are reused first freed first: newcomers get them in the
      order of the queue. */
  lemma {:induction false} ReusedInOrder(b: Book, es: seq<Endpoint>)
    requires Valid(b) && |es| <= |b.free| && AllNew(b, es)
    ensures Valid(ConnectAll(b, es)) && ConnectAll(b, es) == b.(clients := Filled(b, es), free := b.free[|es|..])
  {
    if es != [] {
      var front, e := es[..|es| - 1], es[|es| - 1];
      ReusedInOrder(b, front);
      var c := ConnectAll(b, front);
      ConnectKeeps(c, e);
      FilledEndpoints(b, front);
      assert IdOf(c, e) == None;
      assert c.free[0] == b.free[|front|] && c.free[1..] == b.free[|es|..];
    }
  }

  /** Endpoints that are new to the book and to each other. */
  ghost predicate AllNew(b: Book, es: seq<Endpoint>) {
    && (forall i, j :: 0 <= i < j < |es| ==> es[i] != es[j])
    && forall i, id :: 0 <= i < |es| && id in b.clients ==> b.clients[id].endpoint != es[i]
  }

  /** The clients once the first free identifiers have gone, in order, to newcomers. */
  function Filled(b: Book, es: seq<Endpoint>): map<int, ClientRegister>
    requires |es| <= |b.free|
  {
    if es == [] then b.clients
    else
      var n := |es| - 1;
      Filled(b, es[..n])[b.free[n] := ClientRegister(b.free[n], es[n])]
  }

  lemma {:induction false} FilledEndpoints(b: Book, es: seq<Endpoint>)
    requires |es| <= |b.free|
    ensures forall id :: id in Filled(b, es) ==>
              (id in b.clients && Filled(b, es)[id] == b.clients[id]) || Filled(b, es)[id].endpoint in es
  {
    if es != [] { FilledEndpoints(b, es[..|es| - 1]); }
  }
}

/** The locks of the server process and their order. */
module Locks {

  /** The handler's mutex, the server's, the one of the clients, the one of the
      player actions, the one of the packet queue. */
  datatype Mutex = HANDLER | SERVER | CLIENTS | ACTIONS | QUEUE

  /** The order in which a thread may acquire them. */
  function Rank(m: Mutex): nat {
    match m
    case HANDLER => 0
    case SERVER => 1
    case CLIENTS => 2
    case ACTIONS => 3
    case QUEUE => 4
  }

  datatype Instr =
    | Lock(m: Mutex)
    | Unlock(m: Mutex)
    | Take    // wait on the condition variable for a packet, take it, handle it
    | Push(packet: Packet)
    | Notify  // `notify_one`
    | Fork    // start a game thread

  datatype Role = Handler | Server | Network | Game

  /** What the handler does with a packet, told apart by the locks it takes. */
  datatype Packet = Acknowledged | Logged | Connecting | Disconnecting | GameStart | Ignored
    | ActionRefused | ActionFromStranger | Action

  datatype Activity =
    | Handle                      // one turn of the handler's loop
    | Serve(broadcasts: nat)      // one turn of the server's loop, with its broadcasts
    | SendTimer                   // one message to the clients
    | Receive(packet: Packet)     // one packet into the queue
    | Update                      // one turn of a game loop

  function Guarded(m: Mutex): seq<Instr> { [Lock(m), Unlock(m)] }

  function Broadcasts(n: nat): seq<Instr> { if n == 0 then [] else Broadcasts(n - 1) + Guarded(CLIENTS) }

  function PacketScript(p: Packet): seq<Instr> {
    match p
    case Acknowledged => [Lock(HANDLER), Lock(SERVER), Unlock(SERVER), Unlock(HANDLER)]
    case Logged => Guarded(HANDLER)
    case Connecting => [Lock(HANDLER)] + Guarded(CLIENTS) + Guarded(CLIENTS) + [Unlock(HANDLER)]
    case Disconnecting => [Lock(HANDLER)] + Guarded(CLIENTS) + [Unlock(HANDLER)]
    case GameStart => [Lock(HANDLER)] + Guarded(CLIENTS) + [Unlock(HANDLER), Fork]
    case Ignored => []
    case ActionRefused => Guarded(CLIENTS)
    case ActionFromStranger => Guarded(CLIENTS) + Guarded(CLIENTS)
    case Action => Guarded(CLIENTS) + Guarded(CLIENTS) + Guarded(ACTIONS)
  }

  function Script(a: Activity): seq<Instr> {
    match a
    case Handle => [Lock(QUEUE), Take, Unlock(QUEUE)]
    case Serve(n) => [Lock(SERVER)] + Broadcasts(n) + [Unlock(SERVER)]
    case SendTimer => Guarded(CLIENTS)
    case Receive(p) => [Lock(QUEUE), Push(p), Unlock(QUEUE), Notify]
    case Update => [Lock(SERVER)] + Guarded(ACTIONS) + Guarded(CLIENTS) + [Unlock(SERVER)]
  }

  predicate Does(role: Role, a: Activity) {
    match role
    case Handler => a.Handle?
    case Server => a.Serve?
    case Network => a.SendTimer? || a.Receive?
    case Game => a.Update?
  }

  /** A thread: the mutexes it holds, in the order of acquisition, the rest of its
      current activity, and whether it sleeps on the condition variable. */
  datatype Thread = Thread(role: Role, held: seq<Mutex>, rest: seq<Instr>, asleep: bool)

  /** Thread 0 is the handler, the only one that takes packets from the queue;
      `received` and `handled` are the histories of the two ends of the queue. */
  datatype System = System(threads: seq<Thread>, queue: seq<Packet>, received: seq<Packet>, handled: seq<Packet>)

  const START: System := System([Idle(Handler), Idle(Server), Idle(Network)], [], [], [])

  function Idle(role: Role): Thread { Thread(role, [], [], false) }

  predicate Free(s: System, m: Mutex) { forall i :: 0 <= i < |s.threads| ==> m !in s.threads[i].held }

  /** The next instruction of a thread can be executed now. */
  predicate CanStep(s: System, i: nat) {
    && i < |s.threads| && !s.threads[i].asleep && s.threads[i].rest != []
    && (s.threads[i].rest[0].Lock? ==> Free(s, s.threads[i].rest[0].m))
  }

  /** A sleeping handler that is woken acquires the queue again before it looks. */
  function Woken(t: Thread): Thread {
    if t.asleep then t.(asleep := false, rest := [Lock(QUEUE)] + t.rest) else t
  }

  function Wake(s: System): System {
    if s.threads == [] then s else s.(threads := s.threads[0 := Woken(s.threads[0])])
  }

  /** A thread that has executed its next instruction; with a packet taken, the
      handler's activity goes on with what that packet asks for. */
  function Stepped(t: Thread, queue: seq<Packet>): Thread
    requires t.rest != []
  {
    match t.rest[0]
    case Lock(m) => t.(held := t.held + [m], rest := t.rest[1..])
    case Unlock(_) => t.(held := if t.held == [] then [] else t.held[..|t.held| - 1], rest := t.rest[1..])
    case Take =>
      if queue != [] then t.(rest := t.rest[1..] + PacketScript(queue[0])) else t.(held := [], asleep := true)
    case _ => t.(rest := t.rest[1..])
  }

  function Execute(s: System, i: nat): System
    requires CanStep(s, i)
  {
    var t := s.threads[i];
    var stepped := s.(threads := s.threads[i := Stepped(t, s.queue)]);
    match t.rest[0]
    case Take => if s.queue == [] then stepped else stepped.(queue := s.queue[1..], handled := s.handled + [s.queue[0]])
    case Push(p) => stepped.(queue := s.queue + [p], received := s.received + [p])
    case Notify => Wake(stepped)
    case Fork => stepped.(threads := stepped.threads + [Idle(Game)])
    case _ => stepped
  }

  datatype Move =
    | Exec(thread: nat)
    | Begin(thread: nat, activity: Activity)
    | Spurious  // the condition variable may wake the handler for no reason

  predicate Possible(s: System, move: Move) {
    match move
    case Exec(i) => CanStep(s, i)
    case Begin(i, a) =>
      i < |s.threads| && s.threads[i].rest == [] && !s.threads[i].asleep && Does(s.threads[i].role, a)
    case Spurious => true
  }

  function Moved(s: System, move: Move): System
    requires Possible(s, move)
  {
    match move
    case Exec(i) => Execute(s, i)
    case Begin(i, a) => s.(threads := s.threads[i := s.threads[i].(rest := Script(a))])
    case Spurious => Wake(s)
  }

  predicate AllPossible(s: System, moves: seq<Move>)
    decreases |moves|, 0
  {
    moves == [] ||
    (AllPossible(s, moves[..|moves| - 1]) && Possible(After(s, moves[..|moves| - 1]), moves[|moves| - 1]))
  }

  function After(s: System, moves: seq<Move>): System
    requires AllPossible(s, moves)
    decreases |moves|, 1
  {
    if moves == [] then s else Moved(After(s, moves[..|moves| - 1]), moves[|moves| - 1])
  }

  // ----- The discipline -----

  /** What is left to do acquires mutexes in rising rank only, releases the last
      acquired first, waits for packets with nothing but the queue's mutex, and
      ends with nothing held. */
  predicate Disciplined(held: seq<Mutex>, rest: seq<Instr>)
    decreases |rest|
  {
    if rest == [] then held == []
    else match rest[0]
         case Lock(m) => (forall h :: h in held ==> Rank(h) < Rank(m)) && Disciplined(held + [m], rest[1..])
         case Unlock(m) => held != [] && held[|held| - 1] == m && Disciplined(held[..|held| - 1], rest[1..])
         case Take => held == [QUEUE] && Disciplined(held, rest[1..])
         case Push(_) => QUEUE in held && Disciplined(held, rest[1..])
         case _ => held == [] && Disciplined(held, rest[1..])
  }

  /** A sleeping thread holds nothing and will look again with the queue's mutex. */
  ghost predicate ThreadOk(t: Thread) {
    if t.asleep then t.held == [] && t.rest != [] && t.rest[0] == Take && Disciplined([QUEUE], t.rest)
    else Disciplined(t.held, t.rest)
  }

  ghost predicate Exclusive(s: System) {
    forall i, j, m :: (&& 0 <= i < |s.threads| && 0 <= j < |s.threads|
                       && m in s.threads[i].held && m in s.threads[j].held) ==> i == j
  }

  ghost predicate SystemOk(s: System) {
    && s.threads != []
    && (forall i :: 0 <= i < |s.threads| ==> ThreadOk(s.threads[i]))
    && Exclusive(s)
  }

  /** Instructions in front that are themselves a finished activity. */
  lemma {:induction false} GuardedInside(held: seq<Mutex>, m: Mutex, rest: seq<Instr>)
    requires Disciplined(held, rest) && forall h :: h in held ==> Rank(h) < Rank(m)
    ensures Disciplined(held, Guarded(m) + rest)
  {
    var script := Guarded(m) + rest;
    assert script[0] == Lock(m) && script[1..][0] == Unlock(m) && script[1..][1..] == rest;
    assert (held + [m])[..|held|] == held;
  }

  lemma {:induction false} BroadcastsInside(n: nat, rest: seq<Instr>)
    requires Disciplined([SERVER], rest)
    ensures Disciplined([SERVER], Broadcasts(n) + rest)
  {
    if n == 0 {
      assert Broadcasts(n) + rest == rest;
    } else {
      GuardedInside([SERVER], CLIENTS, rest);
      BroadcastsInside(n - 1, Guarded(CLIENTS) + rest);
      assert Broadcasts(n) + rest == Broadcasts(n - 1) + (Guarded(CLIENTS) + rest);
    }
  }

  /** A script that takes one mutex around a disciplined middle part. */
  lemma Around(m: Mutex, middle: seq<Instr>)
    requires Disciplined([m], middle + [Unlock(m)])
    ensures Disciplined([], [Lock(m)] + middle + [Unlock(m)])
  {
    var script := [Lock(m)] + middle + [Unlock(m)];
    assert script[1..] == middle + [Unlock(m)] && [] + [m] == [m];
  }

  lemma JustUnlock(m: Mutex)
    ensures Disciplined([m], [Unlock(m)]) && Disciplined([], [])
  {
    assert [m][..0] == [] && [Unlock(m)][1..] == [];
  }

  lemma {:induction false} DisciplinedAppend(held: seq<Mutex>, first: seq<Instr>, second: seq<Instr>)
    requires Disciplined(held, first) && Disciplined([], second)
    ensures Disciplined(held, first + second)
    decreases |first|
  {
    if first == [] {
      assert first + second == second;
    } else {
      assert (first + second)[1..] == first[1..] + second;
      match first[0] {
        case Lock(m) => DisciplinedAppend(held + [m], first[1..], second);
        case Unlock(_) => DisciplinedAppend(held[..|held| - 1], first[1..], second);
        case _ => DisciplinedAppend(held, first[1..], second);
      }
    }
  }

  lemma GuardedAlone(m: Mutex)
    ensures Disciplined([], Guarded(m))
  {
    JustUnlock(m);
    GuardedInside([], m, []);
    assert Guarded(m) + [] == Guarded(m);
  }

  lemma HandlerScripts()
    ensures Disciplined([], [Lock(HANDLER), Lock(SERVER), Unlock(SERVER), Unlock(HANDLER)])
    ensures Disciplined([], [Lock(HANDLER)] + Guarded(CLIENTS) + [Unlock(HANDLER)])
    ensures Disciplined([], [Lock(HANDLER)] + Guarded(CLIENTS) + Guarded(CLIENTS) + [Unlock(HANDLER)])
  {
    hide Disciplined;
    JustUnlock(HANDLER);
    GuardedInside([HANDLER], SERVER, [Unlock(HANDLER)]);
    Around(HANDLER, Guarded(SERVER));
    assert [Lock(HANDLER)] + Guarded(SERVER) + [Unlock(HANDLER)]
           == [Lock(HANDLER), Lock(SERVER), Unlock(SERVER), Unlock(HANDLER)];
    GuardedInside([HANDLER], CLIENTS, [Unlock(HANDLER)]);
    Around(HANDLER, Guarded(CLIENTS));
    GuardedInside([HANDLER], CLIENTS, Guarded(CLIENTS) + [Unlock(HANDLER)]);
    assert Guarded(CLIENTS) + (Guarded(CLIENTS) + [Unlock(HANDLER)])
           == (Guarded(CLIENTS) + Guarded(CLIENTS)) + [Unlock(HANDLER)];
    Around(HANDLER, Guarded(CLIENTS) + Guarded(CLIENTS));
    assert [Lock(HANDLER)] + (Guarded(CLIENTS) + Guarded(CLIENTS)) + [Unlock(HANDLER)]
           == [Lock(HANDLER)] + Guarded(CLIENTS) + Guarded(CLIENTS) + [Unlock(HANDLER)];
  }

  lemma TakeScript()
    ensures Disciplined([], [Lock(QUEUE), Take, Unlock(QUEUE)])
  {
    JustUnlock(QUEUE);
    assert [] + [QUEUE] == [QUEUE];
    assert [Take, Unlock(QUEUE)][1..] == [Unlock(QUEUE)];
    assert [Lock(QUEUE), Take, Unlock(QUEUE)][1..] == [Take, Unlock(QUEUE)];
  }

  lemma PushScript(p: Packet)
    ensures Disciplined([], [Lock(QUEUE), Push(p), Unlock(QUEUE), Notify])
  {
    JustUnlock(QUEUE);
    var tail := [Push(p), Unlock(QUEUE)];
    assert [] + [QUEUE] == [QUEUE] && tail[1..] == [Unlock(QUEUE)];
    assert [Lock(QUEUE), Push(p), Unlock(QUEUE)][1..] == tail;
    OneInstruction(Notify);
    DisciplinedAppend([], [Lock(QUEUE), Push(p), Unlock(QUEUE)], [Notify]);
    assert [Lock(QUEUE), Push(p), Unlock(QUEUE)] + [Notify] == [Lock(QUEUE), Push(p), Unlock(QUEUE), Notify];
  }

  lemma OneInstruction(x: Instr)
    requires x == Notify || x == Fork
    ensures Disciplined([], [x])
  {
    assert [x][1..] == [];
  }

  lemma PacketScripts(p: Packet)
    ensures Disciplined([], PacketScript(p))
  {
    hide Disciplined;
    HandlerScripts();
    OneInstruction(Fork);
    JustUnlock(HANDLER);
    GuardedAlone(HANDLER);
    GuardedAlone(CLIENTS);
    GuardedAlone(ACTIONS);
    DisciplinedAppend([], Guarded(CLIENTS), Guarded(CLIENTS));
    DisciplinedAppend([], Guarded(CLIENTS) + Guarded(CLIENTS), Guarded(ACTIONS));
    var start := [Lock(HANDLER)] + Guarded(CLIENTS);
    DisciplinedAppend([], start + [Unlock(HANDLER)], [Fork]);
    assert start + [Unlock(HANDLER)] + [Fork] == start + [Unlock(HANDLER), Fork];
  }

  /** Every activity of every thread keeps the discipline. */
  lemma ScriptsAreDisciplined(a: Activity)
    ensures Disciplined([], Script(a))
  {
    hide Disciplined;
    match a {
      case Handle => TakeScript();
      case Serve(n) =>
        JustUnlock(SERVER);
        BroadcastsInside(n, [Unlock(SERVER)]);
        Around(SERVER, Broadcasts(n));
      case SendTimer => GuardedAlone(CLIENTS);
      case Receive(p) => PushScript(p);
      case Update =>
        JustUnlock(SERVER);
        GuardedInside([SERVER], CLIENTS, [Unlock(SERVER)]);
        GuardedInside([SERVER], ACTIONS, Guarded(CLIENTS) + [Unlock(SERVER)]);
        assert Guarded(ACTIONS) + (Guarded(CLIENTS) + [Unlock(SERVER)])
               == (Guarded(ACTIONS) + Guarded(CLIENTS)) + [Unlock(SERVER)];
        Around(SERVER, Guarded(ACTIONS) + Guarded(CLIENTS));
        assert [Lock(SERVER)] + (Guarded(ACTIONS) + Guarded(CLIENTS)) + [Unlock(SERVER)] == Script(Update);
    }
  }

  // ----- Every reachable state -----

  lemma SteppedOk(t: Thread, queue: seq<Packet>)
    requires ThreadOk(t) && !t.asleep && t.rest != []
    ensures ThreadOk(Stepped(t, queue))
    ensures forall m :: m in Stepped(t, queue).held ==> m in t.held || t.rest[0] == Lock(m)
  {
    hide PacketScript;
    if t.rest[0] == Take && queue != [] {
      PacketScripts(queue[0]);
      DisciplinedAppend([QUEUE], t.rest[1..], PacketScript(queue[0]));
    }
  }

  lemma WokenOk(t: Thread)
    requires ThreadOk(t)
    ensures ThreadOk(Woken(t)) && Woken(t).held == t.held
  {
    if t.asleep {
      assert ([Lock(QUEUE)] + t.rest)[1..] == t.rest && [] + [QUEUE] == [QUEUE];
    }
  }

  lemma WakeOk(s: System)
    requires SystemOk(s)
    ensures SystemOk(Wake(s))
  {
    hide ThreadOk;
    WokenOk(s.threads[0]);
  }

  lemma ReplacedOk(s: System, i: nat, t: Thread)
    requires SystemOk(s) && i < |s.threads| && ThreadOk(t)
    requires forall m :: m in t.held ==> m in s.threads[i].held || Free(s, m)
    ensures SystemOk(s.(threads := s.threads[i := t]))
  {
    hide ThreadOk;
  }

  lemma IdleOk(role: Role)
    ensures ThreadOk(Idle(role))
  {
  }

  lemma ExecuteOk(s: System, i: nat)
    requires SystemOk(s) && CanStep(s, i)
    ensures SystemOk(Execute(s, i))
  {
    hide ThreadOk, Exclusive;
    var t := s.threads[i];
    SteppedOk(t, s.queue);
    ReplacedOk(s, i, Stepped(t, s.queue));
    var stepped := s.(threads := s.threads[i := Stepped(t, s.queue)]);
    IdleOk(Game);
    ForkedOk(stepped);
    if Execute(s, i).threads == stepped.threads { QueuesDoNotMatter(stepped, Execute(s, i)); }
    WakeOk(stepped);
  }

  lemma ForkedOk(s: System)
    requires SystemOk(s)
    ensures SystemOk(s.(threads := s.threads + [Idle(Game)]))
  {
    hide ThreadOk;
    IdleOk(Game);
  }

  lemma QueuesDoNotMatter(s: System, u: System)
    requires SystemOk(s) && s.threads == u.threads
    ensures SystemOk(u)
  {
  }

  lemma MoveOk(s: System, move: Move)
    requires SystemOk(s) && Possible(s, move)
    ensures SystemOk(Moved(s, move))
  {
    hide SystemOk, CanStep, Execute, Disciplined;
    match move {
      case Exec(i) => ExecuteOk(s, i);
      case Begin(i, a) =>
        BeginOk(s, i, a);
      case Spurious => WakeOk(s);
    }
  }

  lemma BeginOk(s: System, i: nat, a: Activity)
    requires SystemOk(s) && i < |s.threads| && s.threads[i].rest == [] && !s.threads[i].asleep
    ensures SystemOk(s.(threads := s.threads[i := s.threads[i].(rest := Script(a))]))
  {
    hide Script, Exclusive;
    ScriptsAreDisciplined(a);
    ReplacedOk(s, i, s.threads[i].(rest := Script(a)));
  }

  /** In every reachable state no mutex is held twice and every thread keeps the discipline. */
  lemma {:induction false} ReachableOk(moves: seq<Move>)
    requires AllPossible(START, moves)
    ensures SystemOk(After(START, moves))
  {
    hide SystemOk, Possible, Moved;
    if moves == [] {
      StartOk();
    } else {
      ReachableOk(moves[..|moves| - 1]);
      MoveOk(After(START, moves[..|moves| - 1]), moves[|moves| - 1]);
    }
  }

  lemma StartOk()
    ensures SystemOk(START)
  {
  }

  // ----- No deadlock -----

  /** Behind every held mutex there is a thread that holds one of at least its rank and can step. */
  lemma {:induction false} SomeHolderSteps(s: System, i: nat, m: Mutex) returns (j: nat)
    requires SystemOk(s) && i < |s.threads| && m in s.threads[i].held
    ensures CanStep(s, j) && exists h :: h in s.threads[j].held && Rank(m) <= Rank(h)
    decreases 5 - Rank(m)
  {
    j := i;
    if !CanStep(s, i) {
      var wanted := s.threads[i].rest[0].m;
      var k :| 0 <= k < |s.threads| && wanted in s.threads[k].held;
      j := SomeHolderSteps(s, k, wanted);
    }
  }

  /** A thread that is stopped at a mutex somebody holds. */
  predicate Waits(s: System, i: nat) {
    && i < |s.threads| && !s.threads[i].asleep && s.threads[i].rest != []
    && s.threads[i].rest[0].Lock? && !Free(s, s.threads[i].rest[0].m)
  }

  /** Deadlock freedom: in every reachable state, with any number of game threads,
      a thread that waits for a mutex waits behind another thread that can step and
      holds a mutex of at least the rank of the wanted one. */
  lemma NoDeadlock(moves: seq<Move>, i: nat) returns (j: nat)
    requires AllPossible(START, moves) && Waits(After(START, moves), i)
    ensures var s := After(START, moves);
            && CanStep(s, j) && j != i
            && exists h :: h in s.threads[j].held && Rank(s.threads[i].rest[0].m) <= Rank(h)
  {
    var s := After(START, moves);
    ReachableOk(moves);
    var m := s.threads[i].rest[0].m;
    var k :| 0 <= k < |s.threads| && m in s.threads[k].held;
    j := SomeHolderSteps(s, k, m);
  }

  /** The number of instructions until a thread holds nothing. */
  function UntilFree(held: seq<Mutex>, rest: seq<Instr>): nat
    decreases |rest|
  {
    if held == [] || rest == [] then 0
    else
      1 + UntilFree(match rest[0]
                    case Lock(m) => held + [m]
                    case Unlock(_) => held[..|held| - 1]
                    case _ => held, rest[1..])
  }

  lemma {:induction false} UntilFreeAppend(held: seq<Mutex>, first: seq<Instr>, second: seq<Instr>)
    requires Disciplined(held, first)
    ensures UntilFree(held, first + second) == UntilFree(held, first)
    decreases |first|
  {
    if first != [] {
      assert (first + second)[1..] == first[1..] + second;
      match first[0] {
        case Lock(m) => UntilFreeAppend(held + [m], first[1..], second);
        case Unlock(_) => UntilFreeAppend(held[..|held| - 1], first[1..], second);
        case _ => UntilFreeAppend(held, first[1..], second);
      }
    }
  }

  /** What is left to do until every mutex is free. */
  function Work(ts: seq<Thread>): nat {
    if ts == [] then 0 else Work(ts[..|ts| - 1]) + UntilFree(ts[|ts| - 1].held, ts[|ts| - 1].rest)
  }

  lemma {:induction false} WorkLess(ts: seq<Thread>, i: nat, t: Thread)
    requires i < |ts| && UntilFree(t.held, t.rest) < UntilFree(ts[i].held, ts[i].rest)
    ensures Work(ts[i := t]) < Work(ts)
  {
    var front := ts[..|ts| - 1];
    if i == |ts| - 1 {
      assert ts[i := t][..|ts| - 1] == front;
    } else {
      assert ts[i := t][..|ts| - 1] == front[i := t];
      WorkLess(front, i, t);
    }
  }

  lemma HolderWorks(s: System, i: nat)
    requires SystemOk(s) && CanStep(s, i) && s.threads[i].held != []
    ensures Work(Execute(s, i).threads) < Work(s.threads)
  {
    hide Work, PacketScript;
    var t := s.threads[i];
    assert ThreadOk(t);
    if t.rest[0] == Take && s.queue != [] {
      UntilFreeAppend(t.held, t.rest[1..], PacketScript(s.queue[0]));
    }
    WorkLess(s.threads, i, Stepped(t, s.queue));
  }

  /** From every reachable state a run leads to one in which no mutex is held: the
      threads that hold one finish, and nobody else has to move. */
  lemma {:induction false} EveryMutexCanBeFreed(moves: seq<Move>) returns (all: seq<Move>)
    requires AllPossible(START, moves)
    ensures AllPossible(START, all) && moves <= all
    ensures forall k :: |moves| <= k < |all| ==> all[k].Exec?
    ensures forall i :: 0 <= i < |After(START, all).threads| ==> After(START, all).threads[i].held == []
    decreases Work(After(START, moves).threads)
  {
    hide Work, Execute, CanStep, SystemOk;
    var s := After(START, moves);
    ReachableOk(moves);
    all := moves;
    if i: nat :| i < |s.threads| && s.threads[i].held != [] {
      var j := SomeHolderSteps(s, i, s.threads[i].held[0]);
      HolderWorks(s, j);
      var longer := moves + [Exec(j)];
      assert longer[..|longer| - 1] == moves;
      all := EveryMutexCanBeFreed(longer);
    }
  }

  // ----- The queue -----

  /** A packet put into the queue is followed by a notification. */
  ghost predicate Announced(rest: seq<Instr>) {
    forall k :: 0 <= k < |rest| && rest[k].Push? ==> Notify in rest[k + 1..]
  }

  /** Nothing is put into the queue and nobody is notified. */
  ghost predicate Quiet(rest: seq<Instr>) {
    forall k :: 0 <= k < |rest| ==> !rest[k].Push? && rest[k] != Notify
  }

  /** Only thread 0 takes packets or sleeps; only the others put packets in. */
  ghost predicate RolesOk(s: System) {
    && s.threads != [] && s.threads[0].role == Handler && Quiet(s.threads[0].rest)
    && forall i :: 0 < i < |s.threads| ==> OtherOk(s.threads[i])
  }

  ghost predicate OtherOk(t: Thread) { t.role != Handler && !t.asleep && Take !in t.rest && Announced(t.rest) }

  /** Some thread is about to notify. */
  ghost predicate Pending(s: System) { exists i :: 0 < i < |s.threads| && Notify in s.threads[i].rest }

  ghost predicate QueueOk(s: System) {
    && RolesOk(s)
    && s.received == s.handled + s.queue
    && (s.threads[0].asleep && s.queue != [] ==> Pending(s))
  }

  lemma {:induction false} BroadcastsOnlyLock(n: nat)
    ensures Take !in Broadcasts(n) && Quiet(Broadcasts(n))
  {
    if n > 0 { BroadcastsOnlyLock(n - 1); }
  }

  lemma QuietAppend(a: seq<Instr>, b: seq<Instr>)
    requires Quiet(a) && Quiet(b)
    ensures Quiet(a + b)
  {
  }

  lemma PacketsAreQuiet(p: Packet)
    ensures Quiet(PacketScript(p))
  {
    hide Quiet;
    GuardedIsQuiet(HANDLER);
    GuardedIsQuiet(CLIENTS);
    GuardedIsQuiet(ACTIONS);
    QuietAppend([Lock(HANDLER)], Guarded(CLIENTS));
    QuietAppend([Lock(HANDLER)] + Guarded(CLIENTS), Guarded(CLIENTS));
    QuietAppend([Lock(HANDLER)] + Guarded(CLIENTS), [Unlock(HANDLER)]);
    QuietAppend([Lock(HANDLER)] + Guarded(CLIENTS) + Guarded(CLIENTS), [Unlock(HANDLER)]);
    QuietAppend([Lock(HANDLER)] + Guarded(CLIENTS), [Unlock(HANDLER), Fork]);
    QuietAppend(Guarded(CLIENTS), Guarded(CLIENTS));
    QuietAppend(Guarded(CLIENTS) + Guarded(CLIENTS), Guarded(ACTIONS));
  }

  lemma GuardedIsQuiet(m: Mutex)
    ensures Quiet(Guarded(m)) && Quiet([Lock(m)]) && Quiet([Unlock(m)]) && Quiet([Unlock(m), Fork])
    ensures Quiet([Lock(HANDLER), Lock(SERVER), Unlock(SERVER), Unlock(HANDLER)]) && Quiet([])
    ensures Quiet([Lock(QUEUE), Take, Unlock(QUEUE)])
  {
  }

  lemma ScriptRoles(role: Role, a: Activity)
    requires Does(role, a)
    ensures role == Handler ==> Quiet(Script(a))
    ensures role != Handler ==> Take !in Script(a) && Announced(Script(a))
  {
    match a {
      case Serve(n) => BroadcastsOnlyLock(n);
      case Receive(_) => assert Script(a)[2..] == [Unlock(QUEUE), Notify];
      case _ =>
    }
  }

  lemma AnnouncedRest(rest: seq<Instr>)
    requires Announced(rest) && rest != []
    ensures Announced(rest[1..]) && (rest[0].Push? ==> Notify in rest[1..])
  {
    forall k | 0 <= k < |rest[1..]| && rest[1..][k].Push? ensures Notify in rest[1..][k + 1..] {
      assert rest[k + 1].Push? && rest[1..][k + 1..] == rest[k + 2..];
    }
  }

  lemma SteppedRest(t: Thread, queue: seq<Packet>)
    requires t.rest != [] && t.rest[0] != Take
    ensures var u := Stepped(t, queue); u.rest == t.rest[1..] && u.role == t.role && u.asleep == t.asleep
  {
  }

  lemma RestMembers(rest: seq<Instr>, x: Instr)
    requires rest != []
    ensures x in rest <==> x == rest[0] || x in rest[1..]
  {
    assert rest == [rest[0]] + rest[1..];
  }

  lemma OtherSteps(t: Thread, queue: seq<Packet>)
    requires OtherOk(t) && t.rest != []
    ensures OtherOk(Stepped(t, queue)) && Stepped(t, queue).rest == t.rest[1..] && t.rest[0] != Take
    ensures t.rest[0].Push? ==> Notify in t.rest[1..]
    ensures Notify in t.rest && t.rest[0] != Notify ==> Notify in t.rest[1..]
  {
    hide Announced, PacketScript, Stepped;
    RestMembers(t.rest, Take);
    RestMembers(t.rest, Notify);
    AnnouncedRest(t.rest);
    SteppedRest(t, queue);
  }

  /** The step of a thread other than the handler. */
  lemma OtherQueue(s: System, i: nat)
    requires QueueOk(s) && CanStep(s, i) && i != 0
    ensures QueueOk(Execute(s, i))
  {
    hide Announced, Stepped;
    var t, u := s.threads[i], Execute(s, i);
    OtherSteps(t, s.queue);
    IdleIsOther();
    if t.rest[0] == Notify {
      WokenIsQuiet(s.threads[0]);
    } else {
      assert forall k :: 0 <= k < |s.threads| && k != i ==> u.threads[k] == s.threads[k];
      assert u.threads[i] == Stepped(t, s.queue);
    }
  }

  lemma WokenIsQuiet(t: Thread)
    requires Quiet(t.rest)
    ensures Quiet(Woken(t).rest) && !Woken(t).asleep && Woken(t).role == t.role
  {
  }

  /** The step of the handler. */
  lemma HandlerQueue(s: System)
    requires QueueOk(s) && CanStep(s, 0)
    ensures QueueOk(Execute(s, 0))
  {
    hide OtherOk, PacketScript;
    var t, u := s.threads[0], Execute(s, 0);
    assert t.rest == [t.rest[0]] + t.rest[1..];
    assert Quiet(t.rest[1..]);
    if s.queue != [] {
      PacketsAreQuiet(s.queue[0]);
      QuietAppend(t.rest[1..], PacketScript(s.queue[0]));
      assert s.queue == [s.queue[0]] + s.queue[1..];
    }
    assert forall k :: 0 < k < |s.threads| ==> u.threads[k] == s.threads[k];
    IdleIsOther();
  }

  lemma IdleIsOther()
    ensures OtherOk(Idle(Game))
  {
  }

  lemma BeginQueue(s: System, i: nat, a: Activity)
    requires QueueOk(s) && Possible(s, Begin(i, a))
    ensures QueueOk(Moved(s, Begin(i, a)))
  {
    hide Script;
    ScriptRoles(s.threads[i].role, a);
    var u := Moved(s, Begin(i, a));
    assert forall k :: 0 <= k < |s.threads| && k != i ==> u.threads[k] == s.threads[k];
  }

  lemma SpuriousQueue(s: System)
    requires QueueOk(s)
    ensures QueueOk(Wake(s))
  {
    WokenIsQuiet(s.threads[0]);
  }

  /** In every reachable state the packets received are those handled, in the same
      order, followed by those queued; and no wake-up is lost: when the handler
      sleeps although packets are queued, some thread is about to notify it. */
  lemma {:induction false} ReceivedInOrder(moves: seq<Move>)
    requires AllPossible(START, moves)
    ensures QueueOk(After(START, moves))
  {
    hide QueueOk, Execute, CanStep;
    if moves == [] {
      StartQueue();
    } else {
      var s := After(START, moves[..|moves| - 1]);
      ReceivedInOrder(moves[..|moves| - 1]);
      match moves[|moves| - 1] {
        case Exec(i) => if i == 0 { HandlerQueue(s); } else { OtherQueue(s, i); }
        case Begin(i, a) => BeginQueue(s, i, a);
        case Spurious => SpuriousQueue(s);
      }
    }
  }

  lemma StartQueue()
    ensures QueueOk(START)
  {
  }

  // ----- Updates and sends are atomic -----

  /** The rest of an activity that holds one mutex from its first instruction to its last. */
  predicate WholeUnder(m: Mutex, held: seq<Mutex>, rest: seq<Instr>)
    decreases |rest|
  {
    && (held != [] ==> held[0] == m && rest != [])
    && (rest == [] ||
        match rest[0]
        case Lock(x) => (held == [] ==> x == m) && WholeUnder(m, held + [x], rest[1..])
        case Unlock(_) =>
          held != [] && (|held| == 1 ==> rest[1..] == []) && WholeUnder(m, held[..|held| - 1], rest[1..])
        case _ => false)
  }

  /** The turns of the server's loop and of the game loops run under the server's mutex. */
  ghost predicate TurnOk(t: Thread) {
    t.role == Server || t.role == Game ==> !t.asleep && WholeUnder(SERVER, t.held, t.rest)
  }

  ghost predicate TurnsOk(s: System) { forall i :: 0 <= i < |s.threads| ==> TurnOk(s.threads[i]) }

  lemma GuardedUnder(m: Mutex, x: Mutex, rest: seq<Instr>)
    requires WholeUnder(m, [m], rest)
    ensures WholeUnder(m, [m], Guarded(x) + rest)
  {
    var script := Guarded(x) + rest;
    assert script[0] == Lock(x) && script[1..][0] == Unlock(x) && script[1..][1..] == rest;
    assert ([m] + [x])[..1] == [m];
  }

  lemma {:induction false} BroadcastsUnder(n: nat, rest: seq<Instr>)
    requires WholeUnder(SERVER, [SERVER], rest)
    ensures WholeUnder(SERVER, [SERVER], Broadcasts(n) + rest)
  {
    if n == 0 {
      assert Broadcasts(n) + rest == rest;
    } else {
      GuardedUnder(SERVER, CLIENTS, rest);
      BroadcastsUnder(n - 1, Guarded(CLIENTS) + rest);
      assert Broadcasts(n) + rest == Broadcasts(n - 1) + (Guarded(CLIENTS) + rest);
    }
  }

  lemma LastUnder()
    ensures WholeUnder(SERVER, [SERVER], [Unlock(SERVER)])
  {
    assert [Unlock(SERVER)][1..] == [] && [SERVER][..0] == [];
  }

  lemma FirstUnder(rest: seq<Instr>)
    requires WholeUnder(SERVER, [SERVER], rest)
    ensures WholeUnder(SERVER, [], [Lock(SERVER)] + rest)
  {
    assert ([Lock(SERVER)] + rest)[1..] == rest && [] + [SERVER] == [SERVER];
  }

  lemma TurnScripts(role: Role, a: Activity)
    requires Does(role, a) && (role == Server || role == Game)
    ensures WholeUnder(SERVER, [], Script(a))
  {
    hide WholeUnder;
    var last := [Unlock(SERVER)];
    LastUnder();
    if a.Serve? {
      BroadcastsUnder(a.broadcasts, last);
      FirstUnder(Broadcasts(a.broadcasts) + last);
      assert Script(a) == [Lock(SERVER)] + (Broadcasts(a.broadcasts) + last);
    } else {
      GuardedUnder(SERVER, CLIENTS, last);
      GuardedUnder(SERVER, ACTIONS, Guarded(CLIENTS) + last);
      FirstUnder(Guarded(ACTIONS) + (Guarded(CLIENTS) + last));
      assert Script(a) == [Lock(SERVER)] + (Guarded(ACTIONS) + (Guarded(CLIENTS) + last));
    }
  }

  lemma StepKeepsTurn(t: Thread, queue: seq<Packet>)
    requires TurnOk(t) && !t.asleep && t.rest != []
    ensures TurnOk(Stepped(t, queue))
  {
    hide PacketScript;
  }

  lemma MoveKeepsTurns(s: System, move: Move)
    requires TurnsOk(s) && Possible(s, move)
    ensures TurnsOk(Moved(s, move))
  {
    hide TurnOk, Stepped, Script;
    match move {
      case Exec(i) =>
        StepKeepsTurn(s.threads[i], s.queue);
        FreshTurn();
        WakeKeepsTurns(s.(threads := s.threads[i := Stepped(s.threads[i], s.queue)]));
      case Begin(i, a) =>
        BegunTurn(s.threads[i], a);
      case Spurious =>
        WakeKeepsTurns(s);
    }
  }

  lemma FreshTurn()
    ensures TurnOk(Idle(Game))
  {
  }

  lemma BegunTurn(t: Thread, a: Activity)
    requires TurnOk(t) && t.rest == [] && !t.asleep && Does(t.role, a)
    ensures TurnOk(t.(rest := Script(a)))
  {
    hide Script;
    if t.role == Server || t.role == Game { TurnScripts(t.role, a); }
  }

  lemma WakeKeepsTurns(s: System)
    requires TurnsOk(s)
    ensures TurnsOk(Wake(s))
  {
    hide WholeUnder;
  }

  lemma {:induction false} ReachableTurns(moves: seq<Move>)
    requires AllPossible(START, moves)
    ensures TurnsOk(After(START, moves))
  {
    hide TurnsOk, Possible, Moved;
    if moves == [] {
      StartTurns();
    } else {
      ReachableTurns(moves[..|moves| - 1]);
      MoveKeepsTurns(After(START, moves[..|moves| - 1]), moves[|moves| - 1]);
    }
  }

  lemma StartTurns()
    ensures TurnsOk(START)
  {
  }

  /** Updates and sends are atomic: in every reachable state at most one turn of the
      server's loop or of a game loop is under way, a turn under way excludes every
      other holder of the server's mutex, and a turn that has not begun begins with it. */
  lemma TurnsAreAtomic(moves: seq<Move>, i: nat, j: nat)
    requires AllPossible(START, moves)
    requires var ts := After(START, moves).threads;
             i < |ts| && j < |ts| && i != j && (ts[i].role == Server || ts[i].role == Game)
    ensures var ts := After(START, moves).threads;
            && (ts[i].held != [] ==> ts[i].held[0] == SERVER && ts[i].rest != [] && SERVER !in ts[j].held)
            && (ts[j].role == Server || ts[j].role == Game ==> ts[i].held == [] || ts[j].held == [])
            && (ts[i].held == [] && ts[i].rest != [] ==> ts[i].rest[0] == Lock(SERVER))
  {
    hide After, AllPossible, ThreadOk;
    ReachableOk(moves);
    ReachableTurns(moves);
    var s := After(START, moves);
    TurnSays(s, i);
    TurnSays(s, j);
  }

  lemma TurnSays(s: System, i: nat)
    requires TurnsOk(s) && i < |s.threads|
    ensures var t := s.threads[i];
            t.role == Server || t.role == Game ==>
              && (t.held != [] ==> t.held[0] == SERVER && SERVER in t.held && t.rest != [])
              && (t.held == [] && t.rest != [] ==> t.rest[0] == Lock(SERVER))
  {
    assert TurnOk(s.threads[i]);
  }

  // ----- What the mutexes are taken for -----

  /** What the threads share. */
  datatype Shared = Stored | Clients | Actions | Packets | Handling

  /** The mutex each of these is touched under. */
  function GuardOf(d: Shared): Mutex {
    match d
    case Stored => SERVER
    case Clients => CLIENTS
    case Actions => ACTIONS
    case Packets => QUEUE
    case Handling => HANDLER
  }

  /** What the handling of a packet touches. */
  predicate PacketTouches(p: Packet, d: Shared) {
    match p
    case Acknowledged => d == Stored || d == Handling
    case Logged => d == Handling
    case Connecting => d == Clients || d == Handling
    case Disconnecting => d == Clients || d == Handling
    case GameStart => d == Clients || d == Handling
    case Ignored => false
    case ActionRefused => d == Clients
    case ActionFromStranger => d == Clients
    case Action => d == Clients || d == Actions
  }

  /** What another activity touches: a turn of the server's loop its clients only if it
      broadcasts, an update the frames, the actions and the clients. */
  predicate Touches(a: Activity, d: Shared) {
    match a
    case Handle => d == Packets
    case Serve(n) => d == Stored || (n > 0 && d == Clients)
    case SendTimer => d == Clients
    case Receive(_) => d == Packets
    case Update => d == Stored || d == Actions || d == Clients
  }

  lemma {:induction false} BroadcastLocks(n: nat, m: Mutex)
    ensures Lock(m) in Broadcasts(n) <==> n > 0 && m == CLIENTS
  {
    if n > 0 { BroadcastLocks(n - 1, m); }
  }

  lemma ActivityLocks(a: Activity, m: Mutex)
    ensures Lock(m) in Script(a)
            <==> match a
                 case Handle => m == QUEUE
                 case Serve(n) => m == SERVER || (n > 0 && m == CLIENTS)
                 case SendTimer => m == CLIENTS
                 case Receive(_) => m == QUEUE
                 case Update => m == SERVER || m == ACTIONS || m == CLIENTS
  {
    hide Broadcasts;
    if a.Serve? { BroadcastLocks(a.broadcasts, m); }
  }

  lemma PacketLocks(p: Packet, m: Mutex)
    ensures Lock(m) in PacketScript(p)
            <==> match p
                 case Acknowledged => m == HANDLER || m == SERVER
                 case Logged => m == HANDLER
                 case Connecting => m == HANDLER || m == CLIENTS
                 case Disconnecting => m == HANDLER || m == CLIENTS
                 case GameStart => m == HANDLER || m == CLIENTS
                 case Ignored => false
                 case ActionRefused => m == CLIENTS
                 case ActionFromStranger => m == CLIENTS
                 case Action => m == CLIENTS || m == ACTIONS
  {
  }

  /** Every activity and every packet's handling takes exactly the mutexes of what it touches. */
  lemma LocksAreNeeded(a: Activity, p: Packet, d: Shared)
    ensures Lock(GuardOf(d)) in Script(a) <==> Touches(a, d)
    ensures Lock(GuardOf(d)) in PacketScript(p) <==> PacketTouches(p, d)
  {
    hide Script, PacketScript;
    ActivityLocks(a, GuardOf(d));
    PacketLocks(p, GuardOf(d));
  }
}

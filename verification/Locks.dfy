// The mutexes of the session engine and the threads that take them: the io thread runs the handlers, a sender
// thread and a stopping thread call in from outside.
module Locks {

  // writeMutex, w4rQMutex, and the mutex inside the sequence number generator
  datatype Lock = WRITE | AWAITING | NUMBER

  datatype Op = Acquire(lock: Lock) | Release(lock: Lock)

  // ---------------------------------------------------------------- what each entry point does to the locks

  function DrawOps(draw: bool): seq<Op> { if draw then [Acquire(NUMBER), Release(NUMBER)] else [] }

  // do_write; draw: the PDU is written at once and has no number
  function DoWriteOps(draw: bool): seq<Op> { [Acquire(WRITE)] + DrawOps(draw) + [Release(WRITE)] }

  // handle_write; file: the PDU is a request; draw: the next PDU is written and has no number
  function HandleWriteOps(file: bool, draw: bool): seq<Op> {
    [Acquire(WRITE)] + (if file then [Acquire(AWAITING), Release(AWAITING)] else []) + DrawOps(draw) + [Release(WRITE)]
  }

  // w4rQ_pop
  const POP_OPS: seq<Op> := [Acquire(AWAITING), Release(AWAITING)]

  // w4rQ_age_cleanup; one do_write for each expired request
  function SweepOps(resends: seq<bool>): seq<Op> { [Acquire(AWAITING)] + ResendOps(resends) + [Release(AWAITING)] }

  function ResendOps(resends: seq<bool>): seq<Op> {
    if resends == [] then [] else DoWriteOps(resends[0]) + ResendOps(resends[1..])
  }

  // do_bind_request and do_enquire_link draw a number before they write.
  function DrawThenWriteOps(draw: bool): seq<Op> { DrawOps(true) + DoWriteOps(draw) }

  datatype Entry = DoWrite(draw: bool) | DrawThenWrite(draw: bool)
                 | HandleWrite(file: bool, draw: bool) | Pop | Sweep(resends: seq<bool>)

  function Ops(e: Entry): seq<Op> {
    match e
    case DoWrite(draw) => DoWriteOps(draw)
    case DrawThenWrite(draw) => DrawThenWriteOps(draw)
    case HandleWrite(file, draw) => HandleWriteOps(file, draw)
    case Pop => POP_OPS
    case Sweep(resends) => SweepOps(resends)
  }

  // The entry points that take the mutex of the awaiting map are handlers.
  predicate Handler(e: Entry) { e.HandleWrite? || e.Pop? || e.Sweep? }

  // ---------------------------------------------------------------- threads

  // What a thread has still to do in the call it is in, and what it holds.
  datatype Thread = Thread(todo: seq<Op>, held: set<Lock>)

  // io: the threads that run handlers.
  datatype System = System(io: set<nat>, threads: map<nat, Thread>)

  datatype Move = Call(thread: nat, entry: Entry) | Go(thread: nat)

  predicate Free(s: System, l: Lock) { forall t | t in s.threads :: l !in s.threads[t].held }

  predicate CanMove(s: System, m: Move) {
    && m.thread in s.threads
    && match m
       case Call(t, e) => s.threads[t].todo == [] && (Handler(e) ==> t in s.io)
       case Go(t) => s.threads[t].todo != [] && (s.threads[t].todo[0].Acquire? ==> Free(s, s.threads[t].todo[0].lock))
  }

  function HeldAfter(held: set<Lock>, op: Op): set<Lock> {
    if op.Acquire? then held + {op.lock} else held - {op.lock}
  }

  function Advance(t: Thread): Thread
    requires t.todo != []
  {
    Thread(t.todo[1..], HeldAfter(t.held, t.todo[0]))
  }

  function MoveOn(s: System, m: Move): System
    requires CanMove(s, m)
  {
    match m
    case Call(t, e) => s.(threads := s.threads[t := s.threads[t].(todo := Ops(e))])
    case Go(t) => s.(threads := s.threads[t := Advance(s.threads[t])])
  }

  function Idle(io: set<nat>, threads: set<nat>): System {
    System(io, map t | t in threads :: Thread([], {}))
  }

  predicate LegalMoves(s: System, ms: seq<Move>)
    decreases |ms|, 0
  {
    ms == [] || (LegalMoves(s, ms[..|ms| - 1]) && CanMove(MovedOn(s, ms[..|ms| - 1]), ms[|ms| - 1]))
  }

  function MovedOn(s: System, ms: seq<Move>): System
    requires LegalMoves(s, ms)
    decreases |ms|, 1
  {
    if ms == [] then s else MoveOn(MovedOn(s, ms[..|ms| - 1]), ms[|ms| - 1])
  }

  // ---------------------------------------------------------------- waiting

  // Thread t is about to take a lock that thread u holds.
  predicate WaitsFor(s: System, t: nat, u: nat) {
    && t in s.threads && u in s.threads
    && s.threads[t].todo != [] && s.threads[t].todo[0].Acquire? && s.threads[t].todo[0].lock in s.threads[u].held
  }

  // Threads that wait for one another in a ring; a ring of one waits for itself.
  ghost predicate Ring(s: System, ts: seq<nat>) {
    ts != [] && forall i | 0 <= i < |ts| :: WaitsFor(s, ts[i], ts[if i + 1 < |ts| then i + 1 else 0])
  }

  // ---------------------------------------------------------------- the discipline of one call

  // The rest of a call that holds these locks: the generator's mutex is let go at once, nothing is taken twice,
  // nothing is let go that is not held, and nothing is kept at the end.
  predicate Disciplined(held: set<Lock>, todo: seq<Op>)
    decreases |todo|
  {
    if todo == [] then held == {}
    else Allowed(held, todo[0]) && Disciplined(HeldAfter(held, todo[0]), todo[1..])
  }

  predicate Allowed(held: set<Lock>, op: Op) {
    if op.Acquire? then op.lock !in held && NUMBER !in held else op.lock in held
  }

  predicate Untouched(l: Lock, todo: seq<Op>) { forall op | op in todo :: op.lock != l }

  lemma CallIsDisciplined(e: Entry)
    ensures Disciplined({}, Ops(e))
    ensures !Handler(e) ==> Untouched(AWAITING, Ops(e))
  {
    match e
    case DoWrite(draw) => DoWriteDisciplined({}, draw, []);
      assert DoWriteOps(draw) + [] == DoWriteOps(draw);
    case DrawThenWrite(draw) =>
      DoWriteDisciplined({}, draw, []);
      assert DoWriteOps(draw) + [] == DoWriteOps(draw);
      DrawDisciplined({}, true, DoWriteOps(draw));
    case HandleWrite(file, draw) => HandleWriteDisciplined(file, draw);
    case Pop => PopDisciplined({}, []);
      assert POP_OPS + [] == POP_OPS;
    case Sweep(resends) => SweepDisciplined(resends);
  }

  /** Which mutexes a call takes: that of the awaiting map exactly where the map is touched, that for writing in all but
      the pop and a sweep that resends nothing, and the generator's exactly where a number is drawn. */
  lemma CallTakes(e: Entry)
    ensures Acquire(AWAITING) in Ops(e) <==> e.Pop? || e.Sweep? || (e.HandleWrite? && e.file)
    ensures Acquire(WRITE) in Ops(e) <==> !e.Pop? && (e.Sweep? ==> e.resends != [])
    ensures Acquire(NUMBER) in Ops(e) <==>
            match e
            case DoWrite(draw) => draw
            case DrawThenWrite(_) => true
            case HandleWrite(_, draw) => draw
            case Pop => false
            case Sweep(resends) => true in resends
  {
    match e
    case DoWrite(draw) => DoWriteTakes(draw);
    case DrawThenWrite(draw) => DoWriteTakes(draw);
    case HandleWrite(file, draw) =>
      assert Ops(e)[0] == Acquire(WRITE);
      assert file ==> Ops(e)[1] == Acquire(AWAITING);
    case Pop => assert POP_OPS[0] == Acquire(AWAITING);
    case Sweep(resends) =>
      assert Ops(e)[0] == Acquire(AWAITING);
      ResendsTake(resends);
  }

  lemma DoWriteTakes(draw: bool)
    ensures Acquire(WRITE) in DoWriteOps(draw) && Acquire(AWAITING) !in DoWriteOps(draw)
    ensures Acquire(NUMBER) in DoWriteOps(draw) <==> draw
  {
    assert DoWriteOps(draw)[0] == Acquire(WRITE);
    assert draw ==> DoWriteOps(draw)[1] == Acquire(NUMBER);
  }

  lemma {:induction false} ResendsTake(resends: seq<bool>)
    ensures Acquire(AWAITING) !in ResendOps(resends)
    ensures Acquire(WRITE) in ResendOps(resends) <==> resends != []
    ensures Acquire(NUMBER) in ResendOps(resends) <==> true in resends
  {
    if resends != [] {
      DoWriteTakes(resends[0]);
      ResendsTake(resends[1..]);
      assert resends == [resends[0]] + resends[1..];
    }
  }

  lemma DrawDisciplined(held: set<Lock>, draw: bool, rest: seq<Op>)
    requires NUMBER !in held && Disciplined(held, rest)
    ensures Disciplined(held, DrawOps(draw) + rest)
  {
    if draw {
      Unroll(held, Acquire(NUMBER), [Release(NUMBER)] + rest);
      Unroll(held + {NUMBER}, Release(NUMBER), rest);
      assert held + {NUMBER} - {NUMBER} == held;
      assert DrawOps(draw) + rest == [Acquire(NUMBER)] + ([Release(NUMBER)] + rest);
    } else {
      assert [] + rest == rest;
    }
  }

  lemma Unroll(held: set<Lock>, op: Op, rest: seq<Op>)
    ensures Disciplined(held, [op] + rest) == (Allowed(held, op) && Disciplined(HeldAfter(held, op), rest))
  {
    assert ([op] + rest)[1..] == rest;
  }

  lemma PopDisciplined(held: set<Lock>, rest: seq<Op>)
    requires NUMBER !in held && AWAITING !in held && Disciplined(held, rest)
    ensures Disciplined(held, POP_OPS + rest)
  {
    Unroll(held, Acquire(AWAITING), [Release(AWAITING)] + rest);
    Unroll(held + {AWAITING}, Release(AWAITING), rest);
    assert held + {AWAITING} - {AWAITING} == held;
    assert POP_OPS + rest == [Acquire(AWAITING)] + ([Release(AWAITING)] + rest);
  }

  lemma DoWriteDisciplined(held: set<Lock>, draw: bool, rest: seq<Op>)
    requires NUMBER !in held && WRITE !in held && Disciplined(held, rest)
    ensures Disciplined(held, DoWriteOps(draw) + rest)
  {
    assert held + {WRITE} - {WRITE} == held;
    Unroll(held + {WRITE}, Release(WRITE), rest);
    DrawDisciplined(held + {WRITE}, draw, [Release(WRITE)] + rest);
    Unroll(held, Acquire(WRITE), DrawOps(draw) + ([Release(WRITE)] + rest));
    assert DoWriteOps(draw) + rest == [Acquire(WRITE)] + (DrawOps(draw) + ([Release(WRITE)] + rest));
  }

  lemma HandleWriteDisciplined(file: bool, draw: bool)
    ensures Disciplined({}, HandleWriteOps(file, draw))
  {
    var rest := DrawOps(draw) + [Release(WRITE)];
    Unroll({WRITE}, Release(WRITE), []);
    assert {WRITE} - {WRITE} == {};
    assert [Release(WRITE)] + [] == [Release(WRITE)];
    DrawDisciplined({WRITE}, draw, [Release(WRITE)]);
    PopDisciplined({WRITE}, rest);
    var filing := if file then [Acquire(AWAITING), Release(AWAITING)] else [];
    assert filing + rest == if file then POP_OPS + rest else rest;
    Unroll({}, Acquire(WRITE), filing + rest);
    assert {} + {WRITE} == {WRITE};
    assert HandleWriteOps(file, draw) == [Acquire(WRITE)] + (filing + rest);
  }

  lemma {:induction false} ResendsDisciplined(resends: seq<bool>)
    ensures Disciplined({AWAITING}, ResendOps(resends) + [Release(AWAITING)])
  {
    if resends == [] {
      Unroll({AWAITING}, Release(AWAITING), []);
      assert {AWAITING} - {AWAITING} == {};
      assert [] + [Release(AWAITING)] == [Release(AWAITING)] + [];
    } else {
      var rest := ResendOps(resends[1..]) + [Release(AWAITING)];
      ResendsDisciplined(resends[1..]);
      DoWriteDisciplined({AWAITING}, resends[0], rest);
      assert ResendOps(resends) + [Release(AWAITING)] == DoWriteOps(resends[0]) + rest;
    }
  }

  lemma SweepDisciplined(resends: seq<bool>)
    ensures Disciplined({}, SweepOps(resends))
  {
    ResendsDisciplined(resends);
    Unroll({}, Acquire(AWAITING), ResendOps(resends) + [Release(AWAITING)]);
    assert {} + {AWAITING} == {AWAITING};
    assert SweepOps(resends) == [Acquire(AWAITING)] + (ResendOps(resends) + [Release(AWAITING)]);
  }

  // ---------------------------------------------------------------- the invariant

  ghost predicate Orderly(s: System) {
    && (forall t | t in s.threads :: Disciplined(s.threads[t].held, s.threads[t].todo))
    && (forall t | t in s.threads && t !in s.io :: AWAITING !in s.threads[t].held && Untouched(AWAITING, s.threads[t].todo))
    && (forall t, u | t in s.threads && u in s.threads && t != u :: s.threads[t].held !! s.threads[u].held)
  }

  lemma MoveKeepsOrder(s: System, m: Move)
    requires Orderly(s) && CanMove(s, m)
    ensures Orderly(MoveOn(s, m)) && MoveOn(s, m).io == s.io
  {
    if m.Call? {
      CallIsDisciplined(m.entry);
    }
  }

  lemma {:induction false} AlwaysOrderly(io: set<nat>, threads: set<nat>, ms: seq<Move>)
    requires LegalMoves(Idle(io, threads), ms)
    ensures var s := MovedOn(Idle(io, threads), ms); Orderly(s) && s.io == io
  {
    if ms != [] {
      AlwaysOrderly(io, threads, ms[..|ms| - 1]);
      MoveKeepsOrder(MovedOn(Idle(io, threads), ms[..|ms| - 1]), ms[|ms| - 1]);
    }
  }

  // With one io thread the awaiting map's mutex is never waited for.
  lemma NobodyWaitsForMap(s: System, t: nat, u: nat)
    requires Orderly(s) && |s.io| <= 1 && WaitsFor(s, t, u)
    ensures s.threads[t].todo[0].lock != AWAITING
  {
    if s.threads[t].todo[0].lock == AWAITING {
      assert s.threads[t].todo[0] in s.threads[t].todo;
      assert t in s.io && u in s.io;
      OneElement(s.io, t, u);
      assert false;
    }
  }

  lemma OneElement(io: set<nat>, t: nat, u: nat)
    requires t in io && u in io && |io| <= 1
    ensures t == u
  {
    if t != u {
      assert {t, u} <= io;
      SubsetSize({t, u}, io);
    }
  }

  lemma SubsetSize(a: set<nat>, b: set<nat>)
    requires a <= b
    ensures |a| <= |b|
  {
    if a != {} {
      var x :| x in a;
      SubsetSize(a - {x}, b - {x});
    }
  }

  // ---------------------------------------------------------------- no deadlock

  // Where one thread waits for another and that for a third, the third is on its way.
  lemma NoChainOfThree(s: System, t: nat, u: nat, v: nat, w: nat)
    requires Orderly(s) && |s.io| <= 1
    requires WaitsFor(s, t, u) && WaitsFor(s, u, v)
    ensures !WaitsFor(s, v, w)
  {
    NobodyWaitsForMap(s, t, u);
    NobodyWaitsForMap(s, u, v);
    assert s.threads[u].todo[0].lock !in s.threads[u].held;
  }

  function Next(ts: seq<nat>, i: nat): nat
    requires i < |ts|
  {
    if i + 1 < |ts| then i + 1 else 0
  }

  lemma NoRing(s: System, ts: seq<nat>)
    requires Orderly(s) && |s.io| <= 1
    ensures !Ring(s, ts)
  {
    if Ring(s, ts) {
      var i := Next(ts, 0);
      var j := Next(ts, i);
      assert WaitsFor(s, ts[0], ts[i]) && WaitsFor(s, ts[i], ts[j]) && WaitsFor(s, ts[j], ts[Next(ts, j)]);
      NoChainOfThree(s, ts[0], ts[i], ts[j], ts[Next(ts, j)]);
    }
  }

  // Two io threads, the first completing a write, the second sweeping.
  function DeadlyMoves(a: nat, b: nat): seq<Move> {
    [Call(a, HandleWrite(true, false)), Call(b, Sweep([false])), Go(a), Go(b)]
  }

  lemma TwoIoThreadsCanDeadlock(io: set<nat>, threads: set<nat>, a: nat, b: nat)
    requires a in io && b in io && a != b && io <= threads
    ensures LegalMoves(Idle(io, threads), DeadlyMoves(a, b)) && Ring(MovedOn(Idle(io, threads), DeadlyMoves(a, b)), [a, b])
  {
    hide LegalMoves, MovedOn;
    var s0 := Idle(io, threads);
    var m0, m1 := Call(a, HandleWrite(true, false)), Call(b, Sweep([false]));
    assert SweepOps([false])[1] == Acquire(WRITE);
    OneMove(s0, m0);
    var s1 := MoveOn(s0, m0);
    OneMoreMove(s0, [m0], m1);
    var s2 := MoveOn(s1, m1);
    OneMoreMove(s0, [m0] + [m1], Go(a));
    var s3 := MoveOn(s2, Go(a));
    OneMoreMove(s0, [m0] + [m1] + [Go(a)], Go(b));
    var s4 := MoveOn(s3, Go(b));
    assert DeadlyMoves(a, b) == [m0] + [m1] + [Go(a)] + [Go(b)];
    assert WaitsFor(s4, a, b) && WaitsFor(s4, b, a);
  }

  lemma OneMoreMove(s: System, ms: seq<Move>, m: Move)
    requires LegalMoves(s, ms) && CanMove(MovedOn(s, ms), m)
    ensures LegalMoves(s, ms + [m]) && MovedOn(s, ms + [m]) == MoveOn(MovedOn(s, ms), m)
  {
    assert (ms + [m])[..|ms|] == ms;
  }

  lemma OneMove(s: System, m: Move)
    requires CanMove(s, m)
    ensures LegalMoves(s, [m]) && MovedOn(s, [m]) == MoveOn(s, m)
  {
    OneMoreMove(s, [], m);
    assert [] + [m] == [m];
  }

  // The interleaving ms brings idle threads to where those in ts wait for one another.
  ghost predicate Deadlocks(io: set<nat>, threads: set<nat>, ms: seq<Move>, ts: seq<nat>) {
    LegalMoves(Idle(io, threads), ms) && Ring(MovedOn(Idle(io, threads), ms), ts)
  }

  /** The two mutexes are taken in both orders, and yet no interleaving of any number of threads ever closes a ring of
      threads that wait for one another, or has one wait for itself, exactly as long as no two threads run handlers. */
  lemma DeadlockFreeIffOneIoThread(io: set<nat>, threads: set<nat>)
    requires io <= threads
    ensures (forall ms, ts :: !Deadlocks(io, threads, ms, ts)) <==> |io| <= 1
  {
    if |io| <= 1 {
      forall ms, ts ensures !Deadlocks(io, threads, ms, ts) {
        if Deadlocks(io, threads, ms, ts) {
          AlwaysOrderly(io, threads, ms);
          NoRing(MovedOn(Idle(io, threads), ms), ts);
        }
      }
    } else {
      var a :| a in io;
      var others := io - {a};
      assert |others| == |io| - 1;
      var b :| b in others;
      TwoIoThreadsCanDeadlock(io, threads, a, b);
      assert Deadlocks(io, threads, DeadlyMoves(a, b), [a, b]);
    }
  }

  lemma BlockedWaits(s: System, t: nat) returns (u: nat)
    requires t in s.threads && s.threads[t].todo != [] && !CanMove(s, Go(t))
    ensures WaitsFor(s, t, u)
  {
    u :| u in s.threads && s.threads[t].todo[0].lock in s.threads[u].held;
  }

  /** With one io thread, whenever some thread is in the middle of a call, some thread can go on. */
  lemma SomeThreadGoesOn(io: set<nat>, threads: set<nat>, ms: seq<Move>, t: nat)
    requires |io| <= 1 && LegalMoves(Idle(io, threads), ms)
    requires var s := MovedOn(Idle(io, threads), ms); t in s.threads && s.threads[t].todo != []
    ensures exists v :: CanMove(MovedOn(Idle(io, threads), ms), Go(v))
  {
    var s := MovedOn(Idle(io, threads), ms);
    AlwaysOrderly(io, threads, ms);
    if !CanMove(s, Go(t)) {
      var u := BlockedWaits(s, t);
      if !CanMove(s, Go(u)) {
        var v := BlockedWaits(s, u);
        if !CanMove(s, Go(v)) {
          var w := BlockedWaits(s, v);
          NoChainOfThree(s, t, u, v, w);
        }
      }
    }
  }
}

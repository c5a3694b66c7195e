// The sending half of the session engine: the queue, the numbers, the throttle, the socket it writes to, and the
// requests that await a response.
module Transmitter {
  import opened Smpp
  import opened SequenceNumbers
  import opened TransmitQueue

  const SECOND: nat := 1_000_000  // the clock counts microseconds
  const MAX_AWAITING: nat := 10
  const MAX_AGE: nat := 30        // seconds

  function Seconds(t: nat): nat { t / SECOND }

  // A request that was sent, and the second it was filed in.
  datatype Stamped = Stamped(pdu: Pdu, stamp: nat)

  // One asynchronous write: the clock as throttle_check read it, and as the write was issued.
  datatype Sent = Sent(pdu: Pdu, level: Level, read: nat, at: nat)

  // What happens to the requests that await a response: a write completes, a response comes, the sweep resends.
  datatype Ack = Completed(write: Tagged) | Answered(num: nat) | Resent(num: nat)

  /** The fields of the engine that sending touches; then the writes the network has not completed; then what has
      happened so far, which the engine never looks at. Writes under way are kept in the order they were issued.
      Closing the socket makes them stale: they can only complete with an error. */
  datatype Transmitter = Transmitter(
    interval: nat,  // timeBetweenSends
    txQ: TxQ, w4rQ: map<nat, Stamped>, nextNum: SeqNum, throttleNext: nat, now: nat,
    open: bool, writes: seq<Tagged>, staleWrites: seq<Tagged>,
    wire: seq<Sent>, accepted: seq<Tagged>, returned: seq<Tagged>, acks: seq<Ack>, draws: nat)
  {
    function Wait(d: nat): Transmitter { this.(now := now + d) }

    function DrawNumber(): Transmitter { this.(nextNum := Succ(nextNum), draws := draws + 1) }

    function ThrottleCheck(): Transmitter {
      this.(now := if now < throttleNext then throttleNext else now, throttleNext := now + interval)
    }

    // On a closed socket a write is stale from the start.
    function AsyncWrite(w: Sent): Transmitter {
      var t := Tagged(w.pdu, w.level);
      if open then this.(writes := writes + [t], wire := wire + [w])
      else this.(staleWrites := staleWrites + [t], wire := wire + [w])
    }

    // The number with which a PDU goes out: numbers up to the minimum are drawn anew.
    function NumberFor(p: Pdu): nat {
      if p.num <= SEQ_MIN then nextNum else p.num
    }

    function WritePdu(): Transmitter
      requires !txQ.Empty()
    {
      var t := txQ.Front();
      var n := NumberFor(t.pdu);
      var s1 := this.(txQ := txQ.PopAs(n));
      var s2 := (if t.pdu.num <= SEQ_MIN then s1.DrawNumber() else s1).ThrottleCheck();
      s2.AsyncWrite(Sent(t.pdu.(num := n), t.level, now, s2.now))
    }

    function Queued(p: Pdu, level: Level): Transmitter {
      this.(txQ := txQ.Push(p, level), accepted := accepted + [Tagged(p, level)])
    }

    function DoWrite(p: Pdu, level: Level): Transmitter {
      if txQ.Empty() then Queued(p, level).WritePdu() else Queued(p, level)
    }

    // A request that is numbered before it is handed over.
    function DoWriteNumbered(p: Pdu, level: Level): Transmitter {
      DrawNumber().DoWrite(p.(num := nextNum), level)
    }

    function WriteDone(i: nat): Transmitter
      requires i < |writes|
    {
      this.(writes := writes[..i] + writes[i + 1..], acks := acks + [Completed(writes[i])])
    }

    // A write has completed: the PDU popped last is filed as awaiting its response.
    function Filed(i: nat): Transmitter
      requires i < |writes|
    {
      if txQ.lastPop.Some? then WriteDone(i).W4rqPut(txQ.lastPop.value.pdu) else WriteDone(i)
    }

    function WriteOk(i: nat, bound: bool): Transmitter
      requires i < |writes|
    {
      var s1 := Filed(i);
      if |s1.w4rQ| < MAX_AWAITING && bound && !txQ.Empty() then s1.WritePdu() else s1
    }

    predicate CanFail(stale: bool, i: nat) { i < |if stale then staleWrites else writes| }

    // The write that fails.
    function Failing(stale: bool, i: nat): Tagged
      requires CanFail(stale, i)
    {
      if stale then staleWrites[i] else writes[i]
    }

    // Every write that has not completed.
    function UnderWay(): seq<Tagged> { staleWrites + writes }

    function WriteFailed(stale: bool, i: nat, last: Option<Tagged>): Transmitter
      requires CanFail(stale, i)
    {
      var s1 := if stale then this.(staleWrites := staleWrites[..i] + staleWrites[i + 1..])
                else this.(writes := writes[..i] + writes[i + 1..]);
      s1.(returned := returned + if last.Some? then [last.value] else [])
    }

    function WriteError(stale: bool, i: nat): Transmitter
      requires CanFail(stale, i)
    {
      WriteFailed(stale, i, txQ.lastPop).(txQ := txQ.PushBackLastPop())
    }

    function Opened(): Transmitter { this.(open := true) }

    function Closed(): Transmitter {
      this.(txQ := txQ.ClearSessionQueues(), open := false, writes := [], staleWrites := staleWrites + writes)
    }

    function W4rqPut(p: Pdu): Transmitter {
      if p.IsRequest() then this.(w4rQ := w4rQ[p.num := Stamped(p, Seconds(now))]) else this
    }

    function W4rqPop(p: Pdu): Transmitter {
      if p.IsResponse() then this.(w4rQ := w4rQ - {p.num}, acks := acks + [Answered(p.num)]) else this
    }

    predicate Expired(k: nat) { k in w4rQ && Seconds(now) - w4rQ[k].stamp >= MAX_AGE }

    // One visit of the sweep. What is erased is the number that the PDU has after it was handed on.
    function Visit(k: nat): Transmitter {
      if Expired(k) then
        var p := w4rQ[k].pdu;
        var n := if txQ.Empty() then NumberFor(p) else p.num;
        var s1 := DoWrite(p, MESSAGE);
        s1.(w4rQ := w4rQ - {n}, acks := acks + [Resent(n)])
      else this
    }

    function Sweep(keys: seq<nat>): Transmitter
      decreases |keys|
    {
      if keys == [] then this else Visit(keys[0]).Sweep(keys[1..])
    }
  }

  // The fresh transmitter; the message level may hold what an earlier run left on disk.
  function Start(interval: nat, backlog: seq<Pdu>, now: nat): Transmitter {
    Transmitter(interval, TxQ([], [], backlog, None), map[], SEQ_MIN, now, now, false, [], [], [], [], [], [], 0)
  }

  function Least(ks: set<nat>): (m: nat)
    requires ks != {}
    ensures m in ks && forall k | k in ks :: m <= k
  {
    LeastExists(ks);
    var m :| m in ks && forall k | k in ks :: m <= k;
    m
  }

  lemma LeastExists(ks: set<nat>)
    requires ks != {}
    ensures exists m :: m in ks && forall k | k in ks :: m <= k
  {
    var m := FindLeast(ks);
  }

  lemma FindLeast(ks: set<nat>) returns (m: nat)
    requires ks != {}
    ensures m in ks && forall k | k in ks :: m <= k
  {
    m :| m in ks;
    var rest := ks - {m};
    if rest != {} {
      var y := FindLeast(rest);
      forall k | k in ks ensures k == m || y <= k {
        if k != m {
          assert k in rest;
        }
      }
      m := if m < y then m else y;
    } else {
      assert ks == {m};
    }
  }

  // The map's keys in the order in which its iterator visits them.
  function Ascending(ks: set<nat>): seq<nat> {
    if ks == {} then [] else [Least(ks)] + Ascending(ks - {Least(ks)})
  }

  // What writing leaves alone.
  ghost predicate WritesOnly(t: Transmitter, u: Transmitter) {
    && u.interval == t.interval && u.w4rQ == t.w4rQ && u.open == t.open
    && u.returned == t.returned && u.acks == t.acks
    && t.now <= u.now && t.draws <= u.draws
  }

  lemma WriteFrame(t: Transmitter)
    requires !t.txQ.Empty()
    ensures WritesOnly(t, t.WritePdu()) && t.WritePdu().accepted == t.accepted
  {
  }

  lemma HandOverFrame(t: Transmitter, p: Pdu, level: Level)
    ensures WritesOnly(t, t.DoWrite(p, level))
    ensures t.DoWrite(p, level).accepted == t.accepted + [Tagged(p, level)]
  {
    hide Transmitter.WritePdu;
    if t.txQ.Empty() {
      WriteFrame(t.Queued(p, level));
    }
  }

  // ---------------------------------------------------------------- what the engine asks of the transmitter

  datatype Action =
    | Accept(pdu: Pdu, level: Level)
    | Issue(pdu: Pdu, level: Level)  // numbered first
    | Complete(i: nat, bound: bool)
    | Fail(stale: bool, j: nat)
    | Read(pdu: Pdu)
    | Look(k: nat)
    | Open
    | Shut
    | Pause(d: nat)

  predicate Doable(t: Transmitter, a: Action) {
    match a
    case Complete(i, _) => i < |t.writes|
    case Fail(stale, j) => t.CanFail(stale, j)
    case _ => true
  }

  function Act(t: Transmitter, a: Action): Transmitter
    requires Doable(t, a)
  {
    match a
    case Accept(p, level) => t.DoWrite(p, level)
    case Issue(p, level) => t.DoWriteNumbered(p, level)
    case Complete(i, bound) => t.WriteOk(i, bound)
    case Fail(stale, j) => t.WriteError(stale, j)
    case Read(p) => t.W4rqPop(p)
    case Look(k) => t.Visit(k)
    case Open => t.Opened()
    case Shut => t.Closed()
    case Pause(d) => t.Wait(d)
  }

  predicate AllDoable(t: Transmitter, acts: seq<Action>)
    decreases |acts|, 0
  {
    acts == [] || (AllDoable(t, acts[..|acts| - 1]) && Doable(Perform(t, acts[..|acts| - 1]), acts[|acts| - 1]))
  }

  function Perform(t: Transmitter, acts: seq<Action>): Transmitter
    requires AllDoable(t, acts)
    decreases |acts|, 1
  {
    if acts == [] then t else Act(Perform(t, acts[..|acts| - 1]), acts[|acts| - 1])
  }

  lemma PerformSnoc(t: Transmitter, acts: seq<Action>, a: Action)
    requires AllDoable(t, acts) && Doable(Perform(t, acts), a)
    ensures AllDoable(t, acts + [a]) && Perform(t, acts + [a]) == Act(Perform(t, acts), a)
  {
    hide Act, Doable;
    assert (acts + [a])[..|acts|] == acts;
  }

  lemma {:induction false} PerformAll(t: Transmitter, xs: seq<Action>, ys: seq<Action>)
    requires AllDoable(t, xs) && AllDoable(Perform(t, xs), ys)
    ensures AllDoable(t, xs + ys) && Perform(t, xs + ys) == Perform(Perform(t, xs), ys)
  {
    hide Act, Doable;
    if ys == [] {
      assert xs + ys == xs;
    } else {
      var zs, y := ys[..|ys| - 1], ys[|ys| - 1];
      PerformAll(t, xs, zs);
      PerformSnoc(t, xs + zs, y);
      assert xs + zs + [y] == xs + ys;
    }
  }
}

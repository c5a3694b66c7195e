// The chain of write completions that drains the queue.
module Chain {
  import opened Smpp
  import opened TransmitQueue
  import opened Transmitter
  import opened Session
  import opened SequenceNumbers
  import opened Accounting
  import Numbering

  // Completions one after the other, with nothing handed to the transmitter in between, until none is outstanding.
  function Drain(t: Transmitter, bound: bool): Transmitter
    decreases t.txQ.Size() + |t.writes|
  {
    if |t.writes| == 1 then CompletionShrinks(t, bound); Drain(t.WriteOk(0, bound), bound) else t
  }

  lemma CompletionShrinks(t: Transmitter, bound: bool)
    requires |t.writes| == 1
    ensures t.WriteOk(0, bound).txQ.Size() + |t.WriteOk(0, bound).writes| < t.txQ.Size() + |t.writes|
  {
    hide Transmitter.WritePdu, Transmitter.Filed;
    FilingEffect(t);
    if !t.txQ.Empty() {
      WriteShrinks(t.Filed(0));
    }
  }

  lemma WriteShrinks(t: Transmitter)
    requires !t.txQ.Empty()
    ensures t.WritePdu().txQ.Size() < t.txQ.Size() && |t.WritePdu().writes| <= |t.writes| + 1
  {
  }

  function Load(t: Transmitter): nat { |t.w4rQ| + |t.writes| }

  lemma FilingEffect(t: Transmitter)
    requires |t.writes| == 1
    ensures var u := t.Filed(0); |u.w4rQ| <= |t.w4rQ| + 1 && u.writes == [] && u.txQ == t.txQ && u.wire == t.wire && u.open == t.open
  {
  }

  lemma NextWrite(t: Transmitter)
    requires !t.txQ.Empty() && t.open
    ensures var u := t.WritePdu();
            && u.writes == t.writes + [Tagged(u.wire[|t.wire|].pdu, u.wire[|t.wire|].level)] && u.w4rQ == t.w4rQ && u.open
            && |u.wire| == |t.wire| + 1 && u.wire[..|t.wire|] == t.wire
            && WrittenAs(u.wire[|t.wire|], t.txQ.Order()[0]) && u.txQ.Order() == t.txQ.Order()[1..]
  {
    PopTakesFirst(t.txQ, t.NumberFor(t.txQ.Front().pdu));
  }

  // How one completion goes on.
  lemma {:induction false} Completion(t: Transmitter, bound: bool)
    requires t.open && |t.writes| == 1
    ensures var f, u := t.Filed(0), t.WriteOk(0, bound);
            && u.open && f.txQ.Order() == t.txQ.Order() && f.txQ.Empty() == t.txQ.Empty()
            && Load(u) <= (if Load(t) <= MAX_AWAITING then MAX_AWAITING else Load(t))
            && if bound && !t.txQ.Empty() && |f.w4rQ| < MAX_AWAITING then
                 && |u.writes| == 1
                 && |u.wire| == |t.wire| + 1 && u.wire[..|t.wire|] == t.wire
                 && WrittenAs(u.wire[|t.wire|], t.txQ.Order()[0]) && u.txQ.Order() == t.txQ.Order()[1..]
               else
                 u == f && u.writes == [] && u.wire == t.wire
  {
    hide Transmitter.WritePdu, Transmitter.Filed;
    FilingEffect(t);
    if !t.txQ.Empty() {
      NextWrite(t.Filed(0));
    }
  }

  /** The chain writes the queue from its front, session before response before message and each in turn. It stops
      when the queue is empty, the session is not bound or ten requests await a response, and not before; and it
      never lets requests awaiting and under way together grow past ten. */
  lemma {:induction false} DrainsInOrder(t: Transmitter, bound: bool)
    requires t.open && |t.writes| == 1
    ensures var u := Drain(t, bound); var n := |u.wire| - |t.wire|;
            && 0 <= n <= |t.txQ.Order()|
            && u.wire[..|t.wire|] == t.wire
            && (forall i | 0 <= i < n :: WrittenAs(u.wire[|t.wire| + i], t.txQ.Order()[i]))
            && u.txQ.Order() == t.txQ.Order()[n..]
            && u.writes == []
            && (u.txQ.Empty() || !bound || |u.w4rQ| >= MAX_AWAITING)
            && Load(u) <= (if Load(t) <= MAX_AWAITING then MAX_AWAITING else Load(t))
    decreases t.txQ.Size()
  {
    hide Transmitter.WriteOk, Transmitter.Filed;
    Completion(t, bound);
    CompletionShrinks(t, bound);
    var v := t.WriteOk(0, bound);
    assert Drain(t, bound) == Drain(v, bound);
    if |v.writes| == 1 {
      DrainsInOrder(v, bound);
      var u := Drain(v, bound);
      var n := |u.wire| - |v.wire|;
      assert u.wire[..|t.wire|] == u.wire[..|v.wire|][..|t.wire|];
      forall i | 0 <= i < n + 1 ensures WrittenAs(u.wire[|t.wire| + i], t.txQ.Order()[i]) {
        if i == 0 {
          assert u.wire[|t.wire|] == u.wire[..|v.wire|][|t.wire|];
        } else {
          assert u.wire[|t.wire| + i] == u.wire[|v.wire| + (i - 1)];
        }
      }
    }
  }

  function Completions(n: nat): seq<Event> { seq(n, _ => WriteOk(0)) }

  /** That chain is what a session goes through when its writes complete and nothing else happens. */
  lemma {:induction false} DrainIsARun(s: Session) returns (n: nat)
    ensures Legal(s, Completions(n))
    ensures After(s, Completions(n)) == s.(tx := Drain(s.tx, s.ctl.state.Bound()))
    decreases s.tx.txQ.Size() + |s.tx.writes|
  {
    hide Transmitter.WriteOk;
    if |s.tx.writes| == 1 {
      var s1 := Step(s, WriteOk(0));
      CompletionShrinks(s.tx, s.ctl.state.Bound());
      var m := DrainIsARun(s1);
      n := m + 1;
      LegalSnoc(s, [], WriteOk(0));
      assert [] + [WriteOk(0)] == [WriteOk(0)];
      LegalAppend(s, [WriteOk(0)], Completions(m));
      assert Completions(n) == [WriteOk(0)] + Completions(m);
    } else {
      n := 0;
      assert Completions(0) == [];
    }
  }

  // ---------------------------------------------------------------- the window outside the chain

  // A session at rest: all it has written has completed, and what awaits a response has a number below the next.
  ghost predicate AtRest(t: Transmitter) {
    && t.txQ.Empty() && t.open && t.writes == [] && t.draws > 0 && t.nextNum == Nth(t.draws)
    && forall k | k in t.w4rQ :: k < SEQ_MIN + t.draws
  }

  function SendAndComplete(p: Pdu, n: nat): seq<Event> {
    if n == 0 then [] else SendAndComplete(p, n - 1) + [Send(p), WriteOk(0)]
  }

  lemma OneMoreAwaits(t: Transmitter, p: Pdu, bound: bool)
    requires AtRest(t) && t.draws < RANGE && p.IsRequest() && p.num == 0
    ensures var u := t.DoWrite(p, MESSAGE);
            && |u.writes| == 1 && AtRest(u.WriteOk(0, bound))
            && u.WriteOk(0, bound).draws == t.draws + 1 && |u.WriteOk(0, bound).w4rQ| == |t.w4rQ| + 1
  {
    Numbering.DrawNext(t);
    var u := t.DoWrite(p, MESSAGE);
    assert u.writes == [Tagged(p.(num := t.nextNum), MESSAGE)] && u.txQ.lastPop == Some(Tagged(p.(num := t.nextNum), MESSAGE));
    assert u.w4rQ == t.w4rQ && t.nextNum !in t.w4rQ;
  }

  lemma OneRound(s: Session, p: Pdu)
    requires AtRest(s.tx) && s.tx.draws < RANGE
    requires s.ctl.state.Bound() && Sendable(s.ctl.state, p.id) && p.IsRequest() && p.num == 0
    ensures var es := [Send(p), WriteOk(0)];
            && Legal(s, es) && var u := After(s, es);
            && AtRest(u.tx) && u.tx.draws == s.tx.draws + 1 && u.ctl == s.ctl && |u.tx.w4rQ| == |s.tx.w4rQ| + 1
  {
    hide Transmitter.DoWrite, Transmitter.WriteOk, AtRest, Sendable;
    OneMoreAwaits(s.tx, p, s.ctl.state.Bound());
    LegalPair(s, Send(p), WriteOk(0));
  }

  /** Only the chain honours the limit of ten. Requests handed over one by one, each completing before the next, all
      go out: any number of them can await a response, up to a cycle of sequence numbers. */
  lemma {:induction false} WindowIsNotEnforced(s: Session, p: Pdu, n: nat)
    requires AtRest(s.tx) && s.tx.draws + n <= RANGE
    requires s.ctl.state.Bound() && Sendable(s.ctl.state, p.id) && p.IsRequest() && p.num == 0
    ensures var es := SendAndComplete(p, n);
            && Legal(s, es) && var u := After(s, es);
            && AtRest(u.tx) && u.tx.draws == s.tx.draws + n && u.ctl == s.ctl && |u.tx.w4rQ| == |s.tx.w4rQ| + n
  {
    hide Step, AtRest, Sendable, Legal, After;
    LegalNone(s);
    if n > 0 {
      WindowIsNotEnforced(s, p, n - 1);
      var u := After(s, SendAndComplete(p, n - 1));
      OneRound(u, p);
      LegalAppend(s, SendAndComplete(p, n - 1), [Send(p), WriteOk(0)]);
    }
  }
}

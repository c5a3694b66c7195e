// What a failed write does to the message it was writing: when it is put back, and when it is lost.
module Failures {
  import opened Smpp
  import opened TransmitQueue
  import opened Transmitter
  import opened Session
  import opened Refinement
  import opened Binding
  import opened Messages
  import Awaiting

  /** A write that fails, on the open socket or on one closed since, has its own PDU put back exactly if that is the PDU
      popped last. */
  lemma PutsBackOwnIff(t: Transmitter, stale: bool, i: nat)
    requires t.CanFail(stale, i)
    ensures t.WriteError(stale, i).txQ == t.txQ.PutBack(t.Failing(stale, i)) <==> t.txQ.lastPop == Some(t.Failing(stale, i))
  {
    var f := t.Failing(stale, i);
    var q := t.txQ.PutBack(f);
    assert q.Line(f.level) == [f.pdu] + t.txQ.Line(f.level);
    if t.txQ.lastPop.Some? {
      var l := t.txQ.lastPop.value;
      assert t.txQ.PushBackLastPop().Line(l.level) == [l.pdu] + t.txQ.Line(l.level);
      if l.level == f.level && t.txQ.PushBackLastPop() == q {
        assert q.Line(f.level)[0] == l.pdu;
      }
    }
  }

  // The messages among the PDUs whose write completed.
  function CompletedMessages(acks: seq<Ack>): multiset<Pdu> {
    if acks == [] then multiset{}
    else
      var a := acks[|acks| - 1];
      CompletedMessages(acks[..|acks| - 1]) + if a.Completed? then MessageOf(a.write) else multiset{}
  }

  // Every message that was there at the start or was accepted since, by a user or the sweep, is queued, being
  // written, or written with success; and nothing else is.
  ghost predicate Accounted(start: multiset<Pdu>, t: Transmitter) {
    Queued(t) + TaggedMessages(t.UnderWay()) + CompletedMessages(t.acks) == start + TaggedMessages(t.accepted)
  }

  // The message of the write that fails, if it is one, is that of the PDU popped last, if that is one.
  predicate FindsOwn(t: Transmitter, stale: bool, i: nat)
    requires t.CanFail(stale, i)
  {
    MessageOf(t.Failing(stale, i)) == LastMessage(t)
  }

  lemma {:induction false} TaggedAppend(xs: seq<Tagged>, ys: seq<Tagged>)
    ensures TaggedMessages(xs + ys) == TaggedMessages(xs) + TaggedMessages(ys)
  {
    hide MessageOf;
    if ys == [] {
      assert xs + ys == xs;
    } else {
      TaggedAppend(xs, ys[..|ys| - 1]);
      assert (xs + ys)[..|xs + ys| - 1] == xs + ys[..|ys| - 1];
    }
  }

  lemma TaggedWithout(ts: seq<Tagged>, i: nat)
    requires i < |ts|
    ensures TaggedMessages(ts[..i] + ts[i + 1..]) + MessageOf(ts[i]) == TaggedMessages(ts)
  {
    hide MessageOf, TaggedMessages;
    TaggedSnoc(ts[..i], ts[i]);
    TaggedAppend(ts[..i], ts[i + 1..]);
    TaggedAppend(ts[..i] + [ts[i]], ts[i + 1..]);
    assert ts[..i] + [ts[i]] + ts[i + 1..] == ts;
  }

  lemma CompletedSnoc(acks: seq<Ack>, a: Ack)
    ensures CompletedMessages(acks + [a]) == CompletedMessages(acks) + if a.Completed? then MessageOf(a.write) else multiset{}
  {
    assert (acks + [a])[..|acks|] == acks;
  }

  // A write moves what it pops from the queue to the writes under way.
  lemma WriteAccounts(t: Transmitter)
    requires !t.txQ.Empty()
    ensures var u := t.WritePdu();
            && Queued(u) + TaggedMessages(u.UnderWay()) == Queued(t) + TaggedMessages(t.UnderWay())
            && u.accepted == t.accepted && u.acks == t.acks
  {
    hide Transmitter.WritePdu, TaggedMessages, MessageOf;
    var u := t.WritePdu();
    PopUnqueues(t);
    var w := GoesUnderWay(t);
    TaggedAppend(t.staleWrites, t.writes);
    TaggedAppend(u.staleWrites, u.writes);
    TaggedSnoc(if t.open then t.writes else t.staleWrites, w);
    assert MessageOf(w) == MessageOf(t.txQ.Front()) by { SameMessage(w, t.txQ.Front()); }
  }

  lemma PopUnqueues(t: Transmitter)
    requires !t.txQ.Empty()
    ensures Queued(t.WritePdu()) + MessageOf(t.txQ.Front()) == Queued(t)
  {
    hide Bares;
    var front := t.txQ.Front();
    if front.level == MESSAGE {
      BaresOfOneMore(t.txQ.message[1..], t.txQ.message[0]);
      assert [t.txQ.message[0]] + t.txQ.message[1..] == t.txQ.message;
    }
  }

  lemma GoesUnderWay(t: Transmitter) returns (w: Tagged)
    requires !t.txQ.Empty()
    ensures w.level == t.txQ.Front().level && w.pdu.Bare() == t.txQ.Front().pdu.Bare()
    ensures var u := t.WritePdu();
            && u.writes == (if t.open then t.writes + [w] else t.writes)
            && u.staleWrites == (if t.open then t.staleWrites else t.staleWrites + [w])
            && u.accepted == t.accepted && u.acks == t.acks
  {
    var front := t.txQ.Front();
    w := front.(pdu := front.pdu.(num := t.NumberFor(front.pdu)));
  }

  lemma SameMessage(v: Tagged, w: Tagged)
    requires v.level == w.level && v.pdu.Bare() == w.pdu.Bare()
    ensures MessageOf(v) == MessageOf(w)
  {
  }

  lemma HandOverAccounts(start: multiset<Pdu>, t: Transmitter, p: Pdu, level: Level)
    requires Accounted(start, t)
    ensures Accounted(start, t.DoWrite(p, level)) && t.DoWrite(p, level).acks == t.acks
  {
    hide Transmitter.WritePdu, TaggedMessages, CompletedMessages, Queued, MessageOf;
    PushConserves(t, p, level);
    var q := t.Queued(p, level);
    var m := MessageOf(Tagged(p, level));
    assert Queued(t) + m + TaggedMessages(t.UnderWay()) + CompletedMessages(t.acks)
        == Queued(t) + TaggedMessages(t.UnderWay()) + CompletedMessages(t.acks) + m;
    assert start + (TaggedMessages(t.accepted) + m) == start + TaggedMessages(t.accepted) + m;
    WriteAccounts(q);
  }

  lemma CompletionAccounts(start: multiset<Pdu>, t: Transmitter, i: nat, bound: bool)
    requires Accounted(start, t) && i < |t.writes|
    ensures Accounted(start, t.WriteOk(i, bound))
  {
    hide Transmitter.WritePdu, TaggedMessages, CompletedMessages, MessageOf;
    var u := t.Filed(i);
    TaggedAppend(t.staleWrites, t.writes);
    TaggedAppend(u.staleWrites, u.writes);
    TaggedWithout(t.writes, i);
    CompletedSnoc(t.acks, Completed(t.writes[i]));
    assert Accounted(start, u);
    if !t.txQ.Empty() {
      WriteAccounts(u);
    }
  }

  lemma Cancel(x: multiset<Pdu>, a: multiset<Pdu>, b: multiset<Pdu>)
    ensures x + a == x + b <==> a == b
  {
    if x + a == x + b {
      forall e ensures a[e] == b[e] {
        assert (x + a)[e] == (x + b)[e];
      }
    }
  }

  /** A failure keeps the account exactly if it finds its own message popped last. */
  lemma FailureAccountsIff(start: multiset<Pdu>, t: Transmitter, stale: bool, i: nat)
    requires Accounted(start, t) && t.CanFail(stale, i)
    ensures Accounted(start, t.WriteError(stale, i)) <==> FindsOwn(t, stale, i)
  {
    hide TaggedMessages, CompletedMessages, Queued, MessageOf, LastMessage;
    var u, f := t.WriteError(stale, i), t.Failing(stale, i);
    ReturnsLast(t, stale, i);
    TaggedAppend(t.staleWrites, t.writes);
    TaggedAppend(u.staleWrites, u.writes);
    TaggedWithout(if stale then t.staleWrites else t.writes, i);
    var x := Queued(t) + TaggedMessages(u.UnderWay()) + CompletedMessages(t.acks);
    assert TaggedMessages(t.UnderWay()) == TaggedMessages(u.UnderWay()) + MessageOf(f);
    assert x + MessageOf(f) == start + TaggedMessages(t.accepted);
    assert Queued(u) + TaggedMessages(u.UnderWay()) + CompletedMessages(u.acks) == x + LastMessage(t);
    Cancel(x, MessageOf(f), LastMessage(t));
  }

  lemma ActAccounts(start: multiset<Pdu>, t: Transmitter, a: Action)
    requires Accounted(start, t) && Doable(t, a) && !a.Fail?
    ensures Accounted(start, Act(t, a))
  {
    hide Transmitter.DoWrite, Transmitter.WriteOk, TaggedMessages, CompletedMessages;
    match a
    case Accept(p, level) => HandOverAccounts(start, t, p, level);
    case Issue(p, level) => HandOverAccounts(start, t.DrawNumber(), p.(num := t.nextNum), level);
    case Look(k) =>
      if t.Expired(k) {
        var p := t.w4rQ[k].pdu;
        HandOverAccounts(start, t, p, MESSAGE);
        CompletedSnoc(t.acks, Resent(if t.txQ.Empty() then t.NumberFor(p) else p.num));
      }
    case Complete(i, bound) => CompletionAccounts(start, t, i, bound);
    case Read(p) => CompletedSnoc(t.acks, Answered(p.num));
    case Shut =>
      assert t.staleWrites + t.writes + [] == t.staleWrites + t.writes;
    case _ =>
  }

  lemma EventAccountsIff(start: multiset<Pdu>, s: Session, e: Event)
    requires Enabled(s, e) && Accounted(start, s.tx)
    ensures Accounted(start, Step(s, e).tx) <==> (e.WriteError? ==> FindsOwn(s.tx, e.stale, e.j))
  {
    if e.WriteError? {
      hide Accounted, FindsOwn, Transmitter.WriteError;
      FailureAccountsIff(start, s.tx, e.stale, e.j);
    } else {
      hide Step, Act, Doable, Actions, Accounted;
      TransmissionRefines(s, e);
      OnlyErrorsFail(s, e);
      var inv := u => Accounted(start, u);
      forall u, a: Action | inv(u) && Doable(u, a) && !a.Fail? ensures inv(Act(u, a)) {
        ActAccounts(start, u, a);
      }
      KeptByActions(inv, (a: Action) => !a.Fail?, s.tx, Actions(s, e));
    }
  }

  predicate OwnAt(s: Session, es: seq<Event>, k: nat)
    requires Legal(s, es) && k < |es| && es[k].WriteError?
  {
    AtStep(s, es, k);
    FindsOwn(At(s, es, k).tx, es[k].stale, es[k].j)
  }

  /** All through a run every message is queued, being written or written with success, once for each time it was handed
      over, exactly if every write that fails finds its own message popped last. */
  lemma {:induction false} MessagesAccountedIff(cfg: Config, backlog: seq<Pdu>, t: nat, es: seq<Event>)
    requires Legal(Init(cfg, backlog, t), es)
    ensures var init := Init(cfg, backlog, t);
            (forall k | 0 <= k <= |es| :: Accounted(multiset(Bares(backlog)), At(init, es, k).tx)) <==>
            (forall k | 0 <= k < |es| && es[k].WriteError? :: OwnAt(init, es, k))
  {
    hide Step, Accounted, FindsOwn;
    var init, start := Init(cfg, backlog, t), multiset(Bares(backlog));
    if forall k | 0 <= k <= |es| :: Accounted(start, At(init, es, k).tx) {
      forall k | 0 <= k < |es| && es[k].WriteError? ensures OwnAt(init, es, k) {
        AtStep(init, es, k);
        EventAccountsIff(start, At(init, es, k), es[k]);
        assert Accounted(start, At(init, es, k + 1).tx);
      }
    }
    if forall k | 0 <= k < |es| && es[k].WriteError? :: OwnAt(init, es, k) {
      StartAccounted(cfg, backlog, t);
      forall k | 0 <= k <= |es| ensures Accounted(start, At(init, es, k).tx) {
        AccountedUpTo(start, init, es, k);
      }
    }
  }

  lemma StartAccounted(cfg: Config, backlog: seq<Pdu>, t: nat)
    ensures Accounted(multiset(Bares(backlog)), Init(cfg, backlog, t).tx)
  {
  }

  lemma {:induction false} AccountedUpTo(start: multiset<Pdu>, s: Session, es: seq<Event>, k: nat)
    requires Legal(s, es) && k <= |es| && Accounted(start, s.tx)
    requires forall j | 0 <= j < |es| && es[j].WriteError? :: OwnAt(s, es, j)
    ensures Accounted(start, At(s, es, k).tx)
  {
    hide Step, Accounted, FindsOwn;
    AtEnds(s, es);
    if k > 0 {
      AccountedUpTo(start, s, es, k - 1);
      AtStep(s, es, k - 1);
      assert es[k - 1].WriteError? ==> OwnAt(s, es, k - 1);
      EventAccountsIff(start, At(s, es, k - 1), es[k - 1]);
    }
  }

  // ---------------------------------------------------------------- one write under way

  // Of the writes under way, stale or not, the one issued last is that of the PDU popped last.
  ghost predicate LastIssued(t: Transmitter) {
    && (!t.open ==> t.writes == [])
    && (t.UnderWay() != [] ==> t.txQ.lastPop == Some(t.UnderWay()[|t.UnderWay()| - 1]))
  }

  // A write that completes, well or not, is the only one under way, on whatever socket.
  predicate Sole(t: Transmitter, e: Event) { e.WriteOk? || e.WriteError? ==> |t.UnderWay()| == 1 }

  ghost predicate OneUnderWay(s: Session, es: seq<Event>)
    requires Legal(s, es)
  {
    forall k | 0 <= k < |es| :: Sole(At(s, es, k).tx, es[k])
  }

  lemma WriteIsLast(t: Transmitter)
    requires !t.txQ.Empty() && (!t.open ==> t.writes == [])
    ensures LastIssued(t.WritePdu())
  {
  }

  lemma HandOverIsLast(t: Transmitter, p: Pdu, level: Level)
    requires LastIssued(t)
    ensures LastIssued(t.DoWrite(p, level))
  {
    hide Transmitter.WritePdu;
    if t.txQ.Empty() {
      WriteIsLast(t.Queued(p, level));
    }
  }

  lemma ActIsLast(t: Transmitter, a: Action)
    requires LastIssued(t) && Doable(t, a) && (a.Complete? || a.Fail? ==> |t.UnderWay()| == 1)
    ensures LastIssued(Act(t, a))
  {
    hide Transmitter.DoWrite, Transmitter.WritePdu;
    match a
    case Accept(p, level) => HandOverIsLast(t, p, level);
    case Issue(p, level) => HandOverIsLast(t.DrawNumber(), p.(num := t.nextNum), level);
    case Look(k) => if t.Expired(k) { HandOverIsLast(t, t.w4rQ[k].pdu, MESSAGE); }
    case Complete(i, _) => if !t.txQ.Empty() { WriteIsLast(t.Filed(i)); }
    case Shut => assert t.staleWrites + t.writes + [] == t.staleWrites + t.writes;
    case _ =>
  }

  lemma EventIsLast(s: Session, e: Event)
    requires Enabled(s, e) && LastIssued(s.tx) && Sole(s.tx, e)
    ensures LastIssued(Step(s, e).tx)
  {
    hide Step, LastIssued, Act, Reacts, ReactionActions;
    TransmissionRefines(s, e);
    if e.WriteOk? || e.WriteError? {
      assert Actions(s, e)[..0] == [];
      ActIsLast(s.tx, Actions(s, e)[0]);
      One(s.tx, Actions(s, e)[0]);
    } else {
      Awaiting.OtherActions(s, e);
      forall u, a: Action | LastIssued(u) && Doable(u, a) && !a.Complete? && !a.Fail? ensures LastIssued(Act(u, a)) {
        ActIsLast(u, a);
      }
      KeptByActions(LastIssued, (a: Action) => !a.Complete? && !a.Fail?, s.tx, Actions(s, e));
    }
  }

  lemma {:induction false} LastIssuedUpTo(s: Session, es: seq<Event>, k: nat)
    requires Legal(s, es) && k <= |es| && OneUnderWay(s, es) && LastIssued(s.tx)
    ensures LastIssued(At(s, es, k).tx)
  {
    hide Step, LastIssued, Sole;
    AtEnds(s, es);
    if k > 0 {
      LastIssuedUpTo(s, es, k - 1);
      AtStep(s, es, k - 1);
      EventIsLast(At(s, es, k - 1), es[k - 1]);
    }
  }

  /** In particular, as long as no write completes or fails while another is under way, on the same socket or one closed
      since, every failed write has its own PDU put back, and every message is accounted for. */
  lemma {:induction false} FailedWriteIsPutBack(cfg: Config, backlog: seq<Pdu>, t: nat, es: seq<Event>)
    requires Legal(Init(cfg, backlog, t), es) && OneUnderWay(Init(cfg, backlog, t), es)
    ensures var init := Init(cfg, backlog, t);
            && Accounted(multiset(Bares(backlog)), After(init, es).tx)
            && forall k | 0 <= k < |es| && es[k].WriteError? :: PutsBackOwnAt(init, es, k)
  {
    hide Step, Accounted, LastIssued, FindsOwn, Transmitter.WriteError;
    var init := Init(cfg, backlog, t);
    StartsLast(cfg, backlog, t);
    forall k | 0 <= k < |es| && es[k].WriteError? ensures OwnAt(init, es, k) && PutsBackOwnAt(init, es, k) {
      LastIssuedUpTo(init, es, k);
      AtStep(init, es, k);
      assert Sole(At(init, es, k).tx, es[k]);
      SoleFailure(At(init, es, k).tx, es[k].stale, es[k].j);
      FailureStep(At(init, es, k), es[k]);
    }
    MessagesAccountedIff(cfg, backlog, t, es);
    AtEnds(init, es);
  }

  predicate PutsBackOwnAt(s: Session, es: seq<Event>, k: nat)
    requires Legal(s, es) && k < |es| && es[k].WriteError?
  {
    AtStep(s, es, k);
    var t := At(s, es, k).tx;
    At(s, es, k + 1).tx.txQ == t.txQ.PutBack(t.Failing(es[k].stale, es[k].j))
  }

  lemma StartsLast(cfg: Config, backlog: seq<Pdu>, t: nat)
    ensures LastIssued(Init(cfg, backlog, t).tx)
  {
  }

  lemma FailureStep(s: Session, e: Event)
    requires Enabled(s, e) && e.WriteError?
    ensures Step(s, e).tx == s.tx.WriteError(e.stale, e.j)
  {
    hide Transmitter.WriteError;
  }

  lemma SoleFailure(t: Transmitter, stale: bool, i: nat)
    requires LastIssued(t) && t.CanFail(stale, i) && |t.UnderWay()| == 1
    ensures FindsOwn(t, stale, i) && t.WriteError(stale, i).txQ == t.txQ.PutBack(t.Failing(stale, i))
  {
    assert t.UnderWay()[0] == t.Failing(stale, i);
    PutsBackOwnIff(t, stale, i);
  }

  /** Otherwise a message can be lost and another doubled: of two that a user sends back to back and that both fail, the
      second is put back twice and the first not at all. Binding.GetsReady leads to such a session. */
  lemma TwoFailuresLoseFirst(s: Session, p: Pdu, q: Pdu)
    requires s.tx.txQ.Empty() && s.tx.open && s.tx.writes == []
    requires Sendable(s.ctl.state, p.id) && Sendable(s.ctl.state, q.id)
    ensures var es := [Send(p), Send(q)] + [WriteError(false, 0), WriteError(false, 0)];
            && Legal(s, es) && var u := After(s, es).tx; var again := Outgoing(Step(s, Send(p)).tx, q);
            && u.writes == [] && u.acks == s.tx.acks && u.txQ.Order() == [again, again]
  {
    hide Step, Sendable;
    SendGoesOut(s, p);
    var s1 := Step(s, Send(p));
    SendGoesOut(s1, q);
    var s2 := Step(s1, Send(q));
    LegalPair(s, Send(p), Send(q));
    var again := Outgoing(s1.tx, q);
    FailsBack(s2, again.pdu);
    var s3 := Step(s2, WriteError(false, 0));
    FailsBack(s3, again.pdu);
    LegalPair(s2, WriteError(false, 0), WriteError(false, 0));
    LegalAppend(s, [Send(p), Send(q)], [WriteError(false, 0), WriteError(false, 0)]);
    assert TxQ([], [], [again.pdu, again.pdu], Some(again)).Order() == [again, again];
  }

  lemma FailsBack(s: Session, q: Pdu)
    requires s.tx.writes != [] && s.tx.txQ.lastPop == Some(Tagged(q, MESSAGE))
    ensures Enabled(s, WriteError(false, 0)) && var u := Step(s, WriteError(false, 0)).tx;
            && u.txQ == s.tx.txQ.(message := [q] + s.tx.txQ.message) && u.writes == s.tx.writes[1..] && u.acks == s.tx.acks
  {
  }

  /** The same happens without haste, when the connection is lost with a message under way: its write fails only after
      the next connection has written its bind, the bind is put back, and the message is gone. */
  lemma LostConnectionLosesMessage(s: Session, p: Pdu)
    requires Ready(s) && Sendable(s.ctl.state, p.id)
    ensures var es := [Send(p), ReadError(HeaderRead, true)] + [Close, Connected(true)] + [WriteError(true, 0)];
            && Legal(s, es) && var u := After(s, es).tx;
            && s.tx.accepted + [Tagged(p, MESSAGE)] <= u.accepted && u.acks == s.tx.acks
            && u.txQ.message == [] && TaggedMessages(u.UnderWay()) == multiset{}
  {
    hide Step, Sendable;
    SendGoesOut(s, p);
    var s1 := Step(s, Send(p));
    HangsUp(s1);
    var s2 := Step(s1, ReadError(HeaderRead, true));
    LegalPair(s, Send(p), ReadError(HeaderRead, true));
    Reconnects(s2, Outgoing(s.tx, p));
    var s4 := Step(Step(s2, Close), Connected(true));
    LegalPair(s2, Close, Connected(true));
    LegalAppend(s, [Send(p), ReadError(HeaderRead, true)], [Close, Connected(true)]);
    AbortsLate(s4);
    LegalSnoc(s, [Send(p), ReadError(HeaderRead, true)] + [Close, Connected(true)], WriteError(true, 0));
  }

  lemma HangsUp(s: Session)
    requires s.ctl.headers > 0 && !s.ctl.stop
    ensures Enabled(s, ReadError(HeaderRead, true)) && var u := Step(s, ReadError(HeaderRead, true));
            u.tx == s.tx && u.ctl.closes == s.ctl.closes + 1 && !u.ctl.stop && u.ctl.reconnect && u.ctl.connects == s.ctl.connects
  {
  }

  lemma Reconnects(s: Session, w: Tagged)
    requires s.ctl.closes > 0 && !s.ctl.stop && s.ctl.reconnect
    requires s.tx.txQ == TxQ([], [], [], Some(w)) && s.tx.writes == [w] && s.tx.staleWrites == []
    ensures Enabled(s, Close) && Enabled(Step(s, Close), Connected(true))
    ensures var u := Step(Step(s, Close), Connected(true)).tx;
            && s.tx.accepted <= u.accepted && u.acks == s.tx.acks && u.staleWrites == [w]
            && |u.writes| == 1 && u.writes[0].level == SESSION && u.txQ == TxQ([], [], [], Some(u.writes[0]))
  {
  }

  lemma AbortsLate(s: Session)
    requires |s.tx.staleWrites| == 1 && |s.tx.writes| == 1
    requires s.tx.writes[0].level == SESSION && s.tx.txQ == TxQ([], [], [], Some(s.tx.writes[0]))
    ensures Enabled(s, WriteError(true, 0)) && var u := Step(s, WriteError(true, 0)).tx;
            u.accepted == s.tx.accepted && u.acks == s.tx.acks && u.txQ.message == [] && TaggedMessages(u.UnderWay()) == multiset{}
  {
    assert s.tx.staleWrites[..0] + s.tx.staleWrites[1..] == [];
    assert [] + s.tx.writes == s.tx.writes && s.tx.writes[..0] == [];
  }
}

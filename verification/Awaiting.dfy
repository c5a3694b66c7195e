// The map of requests that await a response, against the history of what was written and answered.
module Awaiting {
  import opened Smpp
  import opened TransmitQueue
  import opened Transmitter
  import opened Session
  import opened Refinement
  import opened SequenceNumbers
  import opened Binding
  import Accounting

  // The requests whose last completed write no response and no resending has followed, by number.
  function Awaited(acks: seq<Ack>): map<nat, Pdu> {
    if acks == [] then map[]
    else
      var before := Awaited(acks[..|acks| - 1]);
      Recount(before, acks[|acks| - 1])
  }

  function Recount(before: map<nat, Pdu>, a: Ack): map<nat, Pdu> {
    if a.Completed? then
      if a.write.pdu.IsRequest() then before[a.write.pdu.num := a.write.pdu] else before
    else
      before - {a.num}
  }

  // Write i is the completed write of a request numbered n, and nothing has ended its wait since.
  ghost predicate AwaitsSince(acks: seq<Ack>, i: nat, n: nat) {
    && i < |acks| && acks[i].Completed? && acks[i].write.pdu.IsRequest() && acks[i].write.pdu.num == n
    && forall j | i < j < |acks| :: acks[j] != Answered(n) && acks[j] != Resent(n)
  }

  /** What being awaited means. */
  lemma {:induction false} AwaitedMeans(acks: seq<Ack>, n: nat)
    ensures n in Awaited(acks) <==> exists i: nat :: AwaitsSince(acks, i, n)
  {
    if acks != [] {
      var before, last := acks[..|acks| - 1], |acks| - 1;
      AwaitedMeans(before, n);
      forall i: nat | AwaitsSince(acks, i, n) && i < last ensures AwaitsSince(before, i, n) {
        forall j | i < j < |before| ensures before[j] != Answered(n) && before[j] != Resent(n) {
          assert before[j] == acks[j];
        }
      }
      if acks[last] != Answered(n) && acks[last] != Resent(n) {
        forall i: nat | AwaitsSince(before, i, n) ensures AwaitsSince(acks, i, n) {
        }
        if acks[last].Completed? && acks[last].write.pdu.IsRequest() && acks[last].write.pdu.num == n {
          assert AwaitsSince(acks, last, n);
        }
      } else {
        assert forall i: nat :: !AwaitsSince(acks, i, n);
      }
    }
  }

  // Whatever is filed is filed under its own number, and is a request.
  ghost predicate Filing(t: Transmitter) {
    forall k | k in t.w4rQ :: t.w4rQ[k].pdu.num == k && t.w4rQ[k].pdu.IsRequest()
  }

  lemma ActFiles(t: Transmitter, a: Action)
    requires Filing(t) && Doable(t, a)
    ensures Filing(Act(t, a))
  {
    hide Transmitter.DoWrite, Transmitter.WriteOk, TxQ.PushBackLastPop, TxQ.ClearSessionQueues;
    match a
    case Accept(p, level) => HandOverFrame(t, p, level);
    case Issue(p, level) => HandOverFrame(t.DrawNumber(), p.(num := t.nextNum), level);
    case Look(k) => if t.Expired(k) { HandOverFrame(t, t.w4rQ[k].pdu, MESSAGE); }
    case Complete(i, bound) => CompletionFiles(t, i, bound);
    case _ =>
  }

  lemma CompletionFiles(t: Transmitter, i: nat, bound: bool)
    requires Filing(t) && i < |t.writes|
    ensures Filing(t.WriteOk(i, bound))
  {
    hide Transmitter.WritePdu;
    if !t.txQ.Empty() {
      WriteFrame(t.Filed(i));
    }
  }

  /** In every run the map files requests only, no response, and each under its own number. */
  lemma FilesOnlyRequests(cfg: Config, backlog: seq<Pdu>, t: nat, es: seq<Event>)
    requires Legal(Init(cfg, backlog, t), es)
    ensures Filing(After(Init(cfg, backlog, t), es).tx)
  {
    hide Step, Act, Doable;
    forall u, a: Action | Filing(u) && Doable(u, a) ensures Filing(Act(u, a)) {
      ActFiles(u, a);
    }
    KeptByEveryRun(Filing, Init(cfg, backlog, t), es);
  }

  // ---------------------------------------------------------------- what counts as answered

  // The numbers under which answers are recorded, and those of the responses that were read: of all PDUs above
  // generic_nack, whatever their status.
  function AnswerRecord(acks: seq<Ack>): seq<nat> {
    if acks == [] then []
    else AnswerRecord(acks[..|acks| - 1]) + if acks[|acks| - 1].Answered? then [acks[|acks| - 1].num] else []
  }

  function ResponsesRead(rs: seq<Received>): seq<nat> {
    if rs == [] then []
    else ResponsesRead(rs[..|rs| - 1]) + if rs[|rs| - 1].pdu.id > 0x8000_0000 then [rs[|rs| - 1].pdu.num] else []
  }

  lemma RecordSnoc(acks: seq<Ack>, a: Ack)
    ensures AnswerRecord(acks + [a]) == AnswerRecord(acks) + if a.Answered? then [a.num] else []
  {
    assert (acks + [a])[..|acks|] == acks;
  }

  lemma ReadSnoc(rs: seq<Received>, r: Received)
    ensures ResponsesRead(rs + [r]) == ResponsesRead(rs) + if r.pdu.id > 0x8000_0000 then [r.pdu.num] else []
  {
    assert (rs + [r])[..|rs|] == rs;
  }

  lemma ActRecordsAnswers(t: Transmitter, a: Action)
    requires Doable(t, a)
    ensures AnswerRecord(Act(t, a).acks) ==
            AnswerRecord(t.acks) + if a.Read? && a.pdu.id > 0x8000_0000 then [a.pdu.num] else []
  {
    hide AnswerRecord, Transmitter.DoWrite, Transmitter.WritePdu;
    match a
    case Accept(p, level) => HandOverFrame(t, p, level);
    case Issue(p, level) => HandOverFrame(t.DrawNumber(), p.(num := t.nextNum), level);
    case Read(p) => RecordSnoc(t.acks, Answered(p.num));
    case Look(k) =>
      if t.Expired(k) {
        var p := t.w4rQ[k].pdu;
        HandOverFrame(t, p, MESSAGE);
        RecordSnoc(t.acks, Resent(if t.txQ.Empty() then t.NumberFor(p) else p.num));
      }
    case Complete(i, _) =>
      RecordSnoc(t.acks, Completed(t.writes[i]));
      if !t.txQ.Empty() { WriteFrame(t.Filed(i)); }
    case _ =>
  }

  lemma ReadsAtMostFirst(s: Session, e: Event)
    requires Enabled(s, e)
    ensures if e.BodyOk? then
              && Actions(s, e)[0] == Read(e.pdu) && |Actions(s, e)| <= 2
              && (|Actions(s, e)| == 2 ==> !Actions(s, e)[1].Read?)
            else forall a | a in Actions(s, e) :: !a.Read?
    ensures e.BodyOk? ==> Actions(s, e) != []
  {
    hide Reacts;
    LooksOnly(Ascending(s.tx.w4rQ.Keys));
  }

  lemma EventRecordsAnswers(s: Session, e: Event)
    requires Enabled(s, e)
    ensures AnswerRecord(Step(s, e).tx.acks) ==
            AnswerRecord(s.tx.acks) + if e.BodyOk? && e.pdu.id > 0x8000_0000 then [e.pdu.num] else []
  {
    hide Step, Actions, Act, Doable, AnswerRecord;
    TransmissionRefines(s, e);
    ReadsAtMostFirst(s, e);
    var acts := Actions(s, e);
    if e.BodyOk? {
      ActRecordsAnswers(s.tx, acts[0]) by { assert Doable(s.tx, acts[0]) by { ReadDoable(s.tx, e.pdu); } }
      ReadDoable(s.tx, e.pdu);
      One(s.tx, acts[0]);
      if |acts| == 1 {
        assert acts == [acts[0]];
      } else {
        assert acts == [acts[0], acts[1]] && acts[..1] == [acts[0]];
        assert Doable(Perform(s.tx, acts[..1]), acts[1]);
        ActRecordsAnswers(Perform(s.tx, acts[..1]), acts[1]);
      }
    } else {
      var inv := (u: Transmitter) => AnswerRecord(u.acks) == AnswerRecord(s.tx.acks);
      forall u, a: Action | inv(u) && Doable(u, a) && !a.Read? ensures inv(Act(u, a)) {
        ActRecordsAnswers(u, a);
      }
      KeptByActions(inv, (a: Action) => !a.Read?, s.tx, acts);
    }
  }

  lemma ReadDoable(t: Transmitter, p: Pdu)
    ensures Doable(t, Read(p))
  {
  }

  lemma Receives(s: Session, e: Event)
    requires Enabled(s, e)
    ensures Step(s, e).received == s.received + if e.BodyOk? then [Received(e.pdu, s.ctl.state, e.decodes)] else []
  {
    hide Step;
    if e.BodyOk? {
      Accounting.EventAnswers(s, e);
    } else {
      Accounting.OthersReceiveNothing(s, e);
      assert s.received + [] == s.received;
    }
  }

  /** In every run the answers on record are, in turn, the responses that were read, whatever their status. */
  lemma {:induction false} AnswersAreThoseRead(cfg: Config, backlog: seq<Pdu>, t: nat, es: seq<Event>)
    requires Legal(Init(cfg, backlog, t), es)
    ensures var s := After(Init(cfg, backlog, t), es); AnswerRecord(s.tx.acks) == ResponsesRead(s.received)
  {
    hide Step, AnswerRecord, ResponsesRead;
    if es == [] {
      assert AnswerRecord([]) == ResponsesRead([]) by { NothingRecorded(); }
    } else {
      var s, e := After(Init(cfg, backlog, t), es[..|es| - 1]), es[|es| - 1];
      AnswersAreThoseRead(cfg, backlog, t, es[..|es| - 1]);
      EventRecordsAnswers(s, e);
      Receives(s, e);
      if e.BodyOk? {
        ReadSnoc(s.received, Received(e.pdu, s.ctl.state, e.decodes));
      } else {
        assert s.received + [] == s.received && AnswerRecord(s.tx.acks) + [] == AnswerRecord(s.tx.acks);
      }
    }
  }

  lemma NothingRecorded()
    ensures AnswerRecord([]) == ResponsesRead([])
  {
  }

  // ---------------------------------------------------------------- the map is the history

  // The map holds exactly the requests awaited.
  ghost predicate Faithful(t: Transmitter) {
    && t.w4rQ.Keys == Awaited(t.acks).Keys
    && forall k | k in t.w4rQ :: t.w4rQ[k].pdu == Awaited(t.acks)[k]
  }

  // x is filed as it is.
  predicate Holds(t: Transmitter, x: Pdu) { x.num in t.w4rQ && t.w4rQ[x.num].pdu == x }

  // The completion of write i files the right request: the PDU popped last is the one whose write completes, or
  // filing changes nothing in the one case and is not missed in the other.
  predicate FilesRight(t: Transmitter, i: nat)
    requires i < |t.writes|
  {
    var w := t.writes[i].pdu;
    if t.txQ.lastPop.None? then w.IsRequest() ==> Holds(t, w)
    else
      var p := t.txQ.lastPop.value.pdu;
      p == w || ((w.IsRequest() ==> Holds(t, w)) && (p.IsRequest() ==> Holds(t, p)))
  }

  lemma AckSnoc(acks: seq<Ack>, a: Ack)
    ensures Awaited(acks + [a]) == Recount(Awaited(acks), a)
  {
    assert (acks + [a])[..|acks|] == acks;
  }

  lemma {:induction false} FilingIff(t: Transmitter, i: nat)
    requires Faithful(t) && i < |t.writes|
    ensures Faithful(t.Filed(i)) <==> FilesRight(t, i)
  {
    hide Awaited;
    AckSnoc(t.acks, Completed(t.writes[i]));
    var u, w := t.Filed(i), t.writes[i].pdu;
    assert u.acks == t.acks + [Completed(t.writes[i])];
    assert w.IsRequest() ==> w.num in Awaited(u.acks) && Awaited(u.acks)[w.num] == w;
    if t.txQ.lastPop.Some? && t.txQ.lastPop.value.pdu.IsRequest() {
      var p := t.txQ.lastPop.value.pdu;
      assert p.num in u.w4rQ && u.w4rQ[p.num].pdu == p;
    }
  }

  lemma CompletionIff(t: Transmitter, i: nat, bound: bool)
    requires Faithful(t) && i < |t.writes|
    ensures Faithful(t.WriteOk(i, bound)) <==> FilesRight(t, i)
  {
    hide Transmitter.WritePdu, Awaited, FilesRight;
    FilingIff(t, i);
    if !t.txQ.Empty() {
      WriteFrame(t.Filed(i));
    }
  }

  lemma OthersFaithful(t: Transmitter, a: Action)
    requires Faithful(t) && Doable(t, a) && !a.Complete?
    ensures Faithful(Act(t, a))
  {
    hide Awaited, Transmitter.DoWrite, Transmitter.WritePdu;
    match a
    case Accept(p, level) => HandOverFrame(t, p, level);
    case Issue(p, level) => HandOverFrame(t.DrawNumber(), p.(num := t.nextNum), level);
    case Read(p) => AckSnoc(t.acks, Answered(p.num));
    case Look(k) =>
      if t.Expired(k) {
        var p := t.w4rQ[k].pdu;
        HandOverFrame(t, p, MESSAGE);
        AckSnoc(t.acks, Resent(if t.txQ.Empty() then t.NumberFor(p) else p.num));
      }
    case _ =>
  }

  lemma EventIff(s: Session, e: Event)
    requires Enabled(s, e) && Faithful(s.tx)
    ensures Faithful(Step(s, e).tx) <==> (e.WriteOk? ==> FilesRight(s.tx, e.i))
  {
    if e.WriteOk? {
      hide Faithful, FilesRight, Transmitter.WriteOk;
      CompletionIff(s.tx, e.i, s.ctl.state.Bound());
    } else {
      hide Step, Faithful, Act, Actions, Doable;
      TransmissionRefines(s, e);
      OnlyWritesComplete(s, e);
      forall u, a: Action | Faithful(u) && Doable(u, a) && !a.Complete? ensures Faithful(Act(u, a)) {
        OthersFaithful(u, a);
      }
      KeptByActions(Faithful, (a: Action) => !a.Complete?, s.tx, Actions(s, e));
    }
  }

  /** The map is the history all through a run exactly when every completion in it files the right request: exactly
      then, at every point, it holds the requests written with success that no response and no sweep has ended the
      wait of, and nothing else. */
  lemma {:induction false} MapIsHistoryIff(s: Session, es: seq<Event>)
    requires Legal(s, es) && Faithful(s.tx)
    ensures (forall k | 0 <= k <= |es| :: Faithful(At(s, es, k).tx)) <==>
            (forall k | 0 <= k < |es| && es[k].WriteOk? :: RightAt(s, es, k))
  {
    hide Step, Faithful, FilesRight;
    if forall k | 0 <= k <= |es| :: Faithful(At(s, es, k).tx) {
      forall k | 0 <= k < |es| && es[k].WriteOk? ensures RightAt(s, es, k) {
        AtStep(s, es, k);
        EventIff(At(s, es, k), es[k]);
        assert Faithful(At(s, es, k + 1).tx);
      }
    }
    if forall k | 0 <= k < |es| && es[k].WriteOk? :: RightAt(s, es, k) {
      forall k | 0 <= k <= |es| ensures Faithful(At(s, es, k).tx) {
        FaithfulUpTo(s, es, k);
      }
    }
  }

  predicate RightAt(s: Session, es: seq<Event>, k: nat)
    requires Legal(s, es) && k < |es| && es[k].WriteOk?
  {
    AtStep(s, es, k);
    FilesRight(At(s, es, k).tx, es[k].i)
  }

  lemma {:induction false} FaithfulUpTo(s: Session, es: seq<Event>, k: nat)
    requires Legal(s, es) && k <= |es| && Faithful(s.tx)
    requires forall j | 0 <= j < |es| && es[j].WriteOk? :: RightAt(s, es, j)
    ensures Faithful(At(s, es, k).tx)
  {
    hide Step, Faithful, FilesRight;
    AtEnds(s, es);
    if k > 0 {
      FaithfulUpTo(s, es, k - 1);
      AtStep(s, es, k - 1);
      assert es[k - 1].WriteOk? ==> RightAt(s, es, k - 1);
      EventIff(At(s, es, k - 1), es[k - 1]);
    }
  }

  // ---------------------------------------------------------------- one write at a time

  // The PDU popped last is the one written last.
  ghost predicate Newest(t: Transmitter) {
    && (!t.open ==> t.writes == [])
    && (t.writes != [] ==> t.txQ.lastPop == Some(t.writes[|t.writes| - 1]))
  }

  // A completion, well or not, of one of several writes under way on the open socket.
  predicate Overlapping(t: Transmitter, a: Action) {
    (a.Complete? || (a.Fail? && !a.stale)) && |t.writes| != 1
  }

  lemma ActNewest(t: Transmitter, a: Action)
    requires Newest(t) && Doable(t, a) && !Overlapping(t, a)
    ensures Newest(Act(t, a))
  {
    hide Transmitter.DoWrite, Transmitter.WritePdu;
    match a
    case Accept(p, level) => HandOverNewest(t, p, level);
    case Issue(p, level) => HandOverNewest(t.DrawNumber(), p.(num := t.nextNum), level);
    case Look(k) => if t.Expired(k) { HandOverNewest(t, t.w4rQ[k].pdu, MESSAGE); }
    case Complete(i, _) => if !t.txQ.Empty() { WriteNewest(t.Filed(i)); }
    case _ =>
  }

  lemma WriteNewest(t: Transmitter)
    requires !t.txQ.Empty() && (!t.open ==> t.writes == [])
    ensures Newest(t.WritePdu())
  {
  }

  lemma HandOverNewest(t: Transmitter, p: Pdu, level: Level)
    requires Newest(t)
    ensures Newest(t.DoWrite(p, level))
  {
    hide Transmitter.WritePdu;
    if t.txQ.Empty() {
      WriteNewest(t.Queued(p, level));
    }
  }

  // Whether every write that completes on the open socket in a run, well or not, was the only one under way there.
  ghost predicate OneAtATime(s: Session, es: seq<Event>)
    requires Legal(s, es)
  {
    forall k | 0 <= k < |es| :: Alone(At(s, es, k).tx, es[k])
  }

  predicate Alone(t: Transmitter, e: Event) { e.WriteOk? || (e.WriteError? && !e.stale) ==> |t.writes| == 1 }

  lemma EventNewest(s: Session, e: Event)
    requires Enabled(s, e) && Newest(s.tx) && Alone(s.tx, e)
    ensures Newest(Step(s, e).tx)
  {
    hide Step, Newest, Act, Doable, Reacts, ReactionActions;
    TransmissionRefines(s, e);
    if e.WriteOk? || e.WriteError? {
      assert Actions(s, e)[..0] == [];
      ActNewest(s.tx, Actions(s, e)[0]) by { assert Doable(s.tx, Actions(s, e)[0]); }
      One(s.tx, Actions(s, e)[0]);
    } else {
      OtherActions(s, e);
      forall u, a: Action | Newest(u) && Doable(u, a) && !a.Complete? && !a.Fail? ensures Newest(Act(u, a)) {
        ActNewest(u, a);
      }
      KeptByActions(Newest, (a: Action) => !a.Complete? && !a.Fail?, s.tx, Actions(s, e));
    }
  }

  lemma OtherActions(s: Session, e: Event)
    requires Enabled(s, e) && !e.WriteOk? && !e.WriteError?
    ensures forall a | a in Actions(s, e) :: !a.Complete? && !a.Fail?
  {
    hide Reacts;
    LooksOnly(Ascending(s.tx.w4rQ.Keys));
  }

  lemma {:induction false} NewestUpTo(s: Session, es: seq<Event>, k: nat)
    requires Legal(s, es) && k <= |es| && OneAtATime(s, es) && Newest(s.tx)
    ensures Newest(At(s, es, k).tx)
  {
    hide Step, Newest;
    AtEnds(s, es);
    if k > 0 {
      NewestUpTo(s, es, k - 1);
      AtStep(s, es, k - 1);
      EventNewest(At(s, es, k - 1), es[k - 1]);
    }
  }

  /** In particular the map is the history in a run whose writes complete one at a time. */
  lemma {:induction false} MapIsHistory(cfg: Config, backlog: seq<Pdu>, t: nat, es: seq<Event>)
    requires Legal(Init(cfg, backlog, t), es) && OneAtATime(Init(cfg, backlog, t), es)
    ensures Faithful(After(Init(cfg, backlog, t), es).tx) && Newest(After(Init(cfg, backlog, t), es).tx)
  {
    hide Step, Faithful, OneAtATime;
    var init := Init(cfg, backlog, t);
    assert Faithful(init.tx) by { NothingFiled(init.tx); }
    forall k | 0 <= k < |es| && es[k].WriteOk? ensures RightAt(init, es, k) {
      NewestUpTo(init, es, k);
      AtStep(init, es, k);
      assert Alone(At(init, es, k).tx, es[k]) by { TakenAlone(init, es, k); }
    }
    MapIsHistoryIff(init, es);
    NewestUpTo(init, es, |es|);
    AtEnds(init, es);
  }

  lemma TakenAlone(s: Session, es: seq<Event>, k: nat)
    requires Legal(s, es) && OneAtATime(s, es) && k < |es|
    ensures Alone(At(s, es, k).tx, es[k])
  {
  }

  lemma NothingFiled(t: Transmitter)
    requires t.w4rQ == map[] && t.acks == []
    ensures Faithful(t)
  {
  }

  /** Without that, a request can be lost from the map: of two requests that a user sends back to back the first is not
      filed when the writes complete. Binding.GetsReady leads to such a session. */
  lemma SecondWriteHidesFirst(s: Session, p: Pdu, q: Pdu)
    requires s.tx.txQ.Empty() && s.tx.open && s.tx.writes == [] && s.tx.nextNum !in s.tx.w4rQ
    requires Sendable(s.ctl.state, p.id) && p.IsRequest() && p.num == 0
    requires Sendable(s.ctl.state, q.id) && q.IsRequest() && q.num == 0
    ensures var es, m, n := [Send(p), Send(q)] + [WriteOk(0), WriteOk(0)], s.tx.nextNum, Succ(s.tx.nextNum);
            && Legal(s, es) && var u := After(s, es).tx;
            && u.acks == s.tx.acks + [Completed(Tagged(p.(num := m), MESSAGE)), Completed(Tagged(q.(num := n), MESSAGE))]
            && m !in u.w4rQ && n in u.w4rQ
  {
    hide Step, Sendable;
    SendGoesOut(s, p);
    var s1 := Step(s, Send(p));
    SendGoesOut(s1, q);
    var s2 := Step(s1, Send(q));
    LegalPair(s, Send(p), Send(q));
    FilesLastPopped(s2, q.(num := Succ(s.tx.nextNum)));
    var s3 := Step(s2, WriteOk(0));
    FilesLastPopped(s3, q.(num := Succ(s.tx.nextNum)));
    LegalPair(s2, WriteOk(0), WriteOk(0));
    LegalAppend(s, [Send(p), Send(q)], [WriteOk(0), WriteOk(0)]);
  }

  lemma FilesLastPopped(s: Session, q: Pdu)
    requires s.tx.txQ.Empty() && s.tx.writes != [] && s.tx.txQ.lastPop == Some(Tagged(q, MESSAGE)) && q.IsRequest()
    ensures Enabled(s, WriteOk(0)) && var u := Step(s, WriteOk(0));
            && u.tx.txQ == s.tx.txQ && u.tx.writes == s.tx.writes[1..] && u.tx.acks == s.tx.acks + [Completed(s.tx.writes[0])]
            && u.tx.w4rQ.Keys == s.tx.w4rQ.Keys + {q.num}
  {
  }
}

// Whether a request that was answered can be resent.
module Answered {
  import opened Smpp
  import opened SequenceNumbers
  import opened TransmitQueue
  import opened Transmitter
  import opened Session
  import opened Refinement
  import opened Binding
  import Ageing

  // What awaits a response, and so may be resent, has had none.
  ghost predicate Unanswered(t: Transmitter) { forall n | n in t.w4rQ :: Answered(n) !in t.acks }

  // What a completion would file has had no response: none was read while it was being written.
  predicate FilesUnanswered(t: Transmitter) {
    t.txQ.lastPop.Some? && t.txQ.lastPop.value.pdu.IsRequest() ==> Answered(t.txQ.lastPop.value.pdu.num) !in t.acks
  }

  lemma CompletionIff(t: Transmitter, i: nat, bound: bool)
    requires Unanswered(t) && i < |t.writes|
    ensures Unanswered(t.WriteOk(i, bound)) <==> FilesUnanswered(t)
  {
    hide Transmitter.WritePdu;
    var f := t.Filed(i);
    assert f.acks == t.acks + [Completed(t.writes[i])];
    assert forall n :: Answered(n) in f.acks <==> Answered(n) in t.acks;
    if t.txQ.lastPop.Some? && t.txQ.lastPop.value.pdu.IsRequest() {
      assert t.txQ.lastPop.value.pdu.num in f.w4rQ;
    }
    assert Unanswered(f) <==> FilesUnanswered(t);
    if !t.txQ.Empty() {
      WriteFrame(f);
    }
  }

  lemma OthersKeep(t: Transmitter, a: Action)
    requires Unanswered(t) && Doable(t, a) && !a.Complete?
    ensures Unanswered(Act(t, a))
  {
    hide Transmitter.DoWrite, Transmitter.WritePdu;
    match a
    case Accept(p, level) => HandOverFrame(t, p, level);
    case Issue(p, level) => HandOverFrame(t.DrawNumber(), p.(num := t.nextNum), level);
    case Look(k) => if t.Expired(k) { HandOverFrame(t, t.w4rQ[k].pdu, MESSAGE); }
    case _ =>
  }

  lemma EventIff(s: Session, e: Event)
    requires Enabled(s, e) && Unanswered(s.tx)
    ensures Unanswered(Step(s, e).tx) <==> (e.WriteOk? ==> FilesUnanswered(s.tx))
  {
    if e.WriteOk? {
      hide Unanswered, FilesUnanswered, Transmitter.WriteOk;
      CompletionIff(s.tx, e.i, s.ctl.state.Bound());
    } else {
      hide Step, Unanswered, Act, Actions, Doable;
      TransmissionRefines(s, e);
      OnlyWritesComplete(s, e);
      forall u, a: Action | Unanswered(u) && Doable(u, a) && !a.Complete? ensures Unanswered(Act(u, a)) {
        OthersKeep(u, a);
      }
      KeptByActions(Unanswered, (a: Action) => !a.Complete?, s.tx, Actions(s, e));
    }
  }

  predicate LateAt(s: Session, es: seq<Event>, k: nat)
    requires Legal(s, es) && k < |es|
  {
    es[k].WriteOk? && !FilesUnanswered(At(s, es, k).tx)
  }

  /** All through a run nothing that was answered awaits a response still, exactly if at each completion the request that
      it files has had no response yet. */
  lemma {:induction false} AnsweredIsDoneIff(cfg: Config, backlog: seq<Pdu>, t: nat, es: seq<Event>)
    requires Legal(Init(cfg, backlog, t), es)
    ensures var init := Init(cfg, backlog, t);
            (forall k | 0 <= k <= |es| :: Unanswered(At(init, es, k).tx)) <==>
            (forall k | 0 <= k < |es| :: !LateAt(init, es, k))
  {
    hide Step, Unanswered, FilesUnanswered;
    var init := Init(cfg, backlog, t);
    if forall k | 0 <= k <= |es| :: Unanswered(At(init, es, k).tx) {
      forall k | 0 <= k < |es| ensures !LateAt(init, es, k) {
        AtStep(init, es, k);
        EventIff(At(init, es, k), es[k]);
        assert Unanswered(At(init, es, k + 1).tx);
      }
    }
    if forall k | 0 <= k < |es| :: !LateAt(init, es, k) {
      StartsUnanswered(cfg, backlog, t);
      forall k | 0 <= k <= |es| ensures Unanswered(At(init, es, k).tx) {
        UnansweredUpTo(init, es, k);
      }
    }
  }

  lemma StartsUnanswered(cfg: Config, backlog: seq<Pdu>, t: nat)
    ensures Unanswered(Init(cfg, backlog, t).tx)
  {
  }

  lemma {:induction false} UnansweredUpTo(s: Session, es: seq<Event>, k: nat)
    requires Legal(s, es) && k <= |es| && Unanswered(s.tx)
    requires forall j | 0 <= j < |es| :: !LateAt(s, es, j)
    ensures Unanswered(At(s, es, k).tx)
  {
    hide Step, Unanswered, FilesUnanswered;
    AtEnds(s, es);
    if k > 0 {
      UnansweredUpTo(s, es, k - 1);
      AtStep(s, es, k - 1);
      assert !LateAt(s, es, k - 1);
      EventIff(At(s, es, k - 1), es[k - 1]);
    }
  }

  // ---------------------------------------------------------------- an answer that comes early

  // A request goes out, its answer is read, and then its write completes; later the sweep runs.
  function EarlyAnswer(s: Session, p: Pdu): seq<Event> {
    [Send(p), HeaderOk] + [BodyOk(ResponseTo(p.(num := s.tx.nextNum)), true), WriteOk(0)]
  }

  function ThenSweep(s: Session): seq<Event>
    requires s.age.Some?
  {
    [Tick(s.age.value + MAX_AGE * SECOND), AgeTimer(false)]
  }

  // The request is on the wire, and on the map, and answered.
  ghost predicate AnsweredButFiled(s: Session, u: Session, w: Pdu) {
    && u.age == s.age && u.tx.txQ.Empty() && |u.tx.wire| == |s.tx.wire| + 1 && u.tx.wire[|s.tx.wire|].pdu == w
    && u.tx.w4rQ.Keys == {w.num} && u.tx.w4rQ[w.num] == Stamped(w, Seconds(u.tx.now)) && Answered(w.num) in u.tx.acks
  }

  lemma EarlyAnswerIsFiled(s: Session, p: Pdu)
    requires Ready(s) && Sendable(s.ctl.state, p.id) && p.IsRequest() && p.num == 0
    ensures Legal(s, EarlyAnswer(s, p))
    ensures s.tx.nextNum > SEQ_MIN && AnsweredButFiled(s, After(s, EarlyAnswer(s, p)), p.(num := s.tx.nextNum))
  {
    hide Step, Sendable;
    assert Nth(1) == Succ(Nth(0)) && Nth(2) == Succ(Nth(1));
    SendGoesOut(s, p);
    var w, s1 := p.(num := s.tx.nextNum), Step(s, Send(p));
    assert s1.tx.writes == [Tagged(w, MESSAGE)];
    HeaderComes(s1);
    var s2 := Step(s1, HeaderOk);
    AnswerComes(s2, w);
    var s3 := Step(s2, BodyOk(ResponseTo(w), true));
    assert Answered(w.num) in s3.tx.acks;
    CompletesLate(s3, w);
    LegalPair(s, Send(p), HeaderOk);
    LegalPair(s2, BodyOk(ResponseTo(w), true), WriteOk(0));
    LegalAppend(s, [Send(p), HeaderOk], [BodyOk(ResponseTo(w), true), WriteOk(0)]);
  }

  /** A message centre that answers before the write is reported complete has the request sent again: it is filed after
      its answer was read, and the sweep resends it. Binding.GetsReady leads to such a session. */
  lemma EarlyAnswerIsResent(s: Session, p: Pdu)
    requires Ready(s) && Sendable(s.ctl.state, p.id) && p.IsRequest() && p.num == 0
    ensures var n, es := s.tx.nextNum, EarlyAnswer(s, p) + ThenSweep(s);
            && Legal(s, es) && var u := After(s, es).tx;
            && Answered(n) in u.acks && |u.wire| == |s.tx.wire| + 2
            && u.wire[|s.tx.wire|].pdu == u.wire[|s.tx.wire| + 1].pdu == p.(num := n)
  {
    hide Step, Sendable, EarlyAnswer, ThenSweep, AnsweredButFiled, After, Legal;
    EarlyAnswerIsFiled(s, p);
    SweepResends(s, After(s, EarlyAnswer(s, p)), p.(num := s.tx.nextNum));
    LegalAppend(s, EarlyAnswer(s, p), ThenSweep(s));
  }

  lemma SweepResends(s: Session, u: Session, w: Pdu)
    requires s.age.Some? && AnsweredButFiled(s, u, w) && w.num > SEQ_MIN
    ensures Legal(u, ThenSweep(s)) && var end := After(u, ThenSweep(s)).tx;
            && Answered(w.num) in end.acks && |end.wire| == |s.tx.wire| + 2
            && end.wire[|s.tx.wire|].pdu == end.wire[|s.tx.wire| + 1].pdu == w
  {
    hide Step;
    var d := s.age.value + MAX_AGE * SECOND;
    TimePasses(u, d);
    var v := Step(u, Tick(d));
    ThirtySeconds(u.tx.now + s.age.value, u.tx.now);
    SweepSendsAgain(v, w);
    LegalPair(u, Tick(d), AgeTimer(false));
    var end := Step(v, AgeTimer(false)).tx;
    assert end.wire[|s.tx.wire|] == end.wire[..|v.tx.wire|][|s.tx.wire|];
  }

  lemma AnswerComes(s: Session, w: Pdu)
    requires s.ctl.bodies > 0 && s.ctl.state.Bound() && Sendable(s.ctl.state, w.id) && w.IsRequest() && s.tx.w4rQ == map[]
    ensures Enabled(s, BodyOk(ResponseTo(w), true)) && var u := Step(s, BodyOk(ResponseTo(w), true));
            && u.ctl.state == s.ctl.state && u.age == s.age
            && u.tx == s.tx.(acks := s.tx.acks + [Answered(w.num)])
  {
    assert s.tx.w4rQ - {w.num} == map[];
  }

  lemma CompletesLate(s: Session, w: Pdu)
    requires s.tx.txQ == TxQ([], [], [], Some(Tagged(w, MESSAGE))) && s.tx.writes == [Tagged(w, MESSAGE)] && w.IsRequest()
    requires s.tx.w4rQ == map[]
    ensures Enabled(s, WriteOk(0)) && var u := Step(s, WriteOk(0));
            && u.age == s.age && u.tx.txQ == s.tx.txQ && u.tx.wire == s.tx.wire && u.tx.now == s.tx.now
            && u.tx.w4rQ == map[w.num := Stamped(w, Seconds(s.tx.now))]
            && forall a | a in s.tx.acks :: a in u.tx.acks
  {
  }

  lemma ThirtySeconds(a: nat, b: nat)
    requires a >= b
    ensures Seconds(a + MAX_AGE * SECOND) - Seconds(b) >= MAX_AGE
  {
  }

  lemma SweepSendsAgain(s: Session, w: Pdu)
    requires s.age.Some? && s.age.value <= s.tx.now && s.tx.txQ.Empty() && w.num > SEQ_MIN
    requires s.tx.w4rQ.Keys == {w.num} && s.tx.w4rQ[w.num].pdu == w && s.tx.Expired(w.num)
    ensures Enabled(s, AgeTimer(false)) && var u := Step(s, AgeTimer(false)).tx;
            && |u.wire| == |s.tx.wire| + 1 && u.wire[..|s.tx.wire|] == s.tx.wire && u.wire[|s.tx.wire|].pdu == w
            && forall a | a in s.tx.acks :: a in u.acks
  {
    hide Step;
    Ageing.SweepStep(s);
    var ks := s.tx.w4rQ.Keys;
    assert Least(ks) == w.num && ks - {w.num} == {};
    assert Ascending({}) == [];
    assert Ascending(ks) == [w.num];
    assert s.tx.Sweep([w.num]) == s.tx.Visit(w.num).Sweep([]);
  }
}

// What becomes of every PDU the engine accepts for sending, and of every request it owes an answer.
module Accounting {
  import opened Smpp
  import opened TransmitQueue
  import opened Transmitter
  import opened Session
  import opened Refinement

  // ---------------------------------------------------------------- direct writing

  // w is how an accepted PDU appears on the wire: itself, but for a number if it had none.
  predicate WrittenAs(w: Sent, a: Tagged) {
    && w.level == a.level && w.pdu.Bare() == a.pdu.Bare()
    && (a.pdu.num > SEQ_MIN ==> w.pdu == a.pdu)
  }

  // Nothing is queued, and the wire is what was accepted, in that order.
  ghost predicate Direct(t: Transmitter) {
    t.txQ.Empty() && |t.wire| == |t.accepted| && forall i | 0 <= i < |t.wire| :: WrittenAs(t.wire[i], t.accepted[i])
  }

  lemma WriteIsDirect(t: Transmitter, p: Pdu, level: Level)
    requires Direct(t)
    ensures Direct(t.DoWrite(p, level))
    ensures t.DoWrite(p, level).accepted == t.accepted + [Tagged(p, level)]
  {
    var t' := t.DoWrite(p, level);
    assert t'.wire[..|t.wire|] == t.wire;
    assert WrittenAs(t'.wire[|t.wire|], Tagged(p, level));
  }

  lemma ActIsDirect(t: Transmitter, a: Action)
    requires Direct(t) && Doable(t, a) && !a.Fail?
    ensures Direct(Act(t, a))
  {
    hide Transmitter.DoWrite;
    match a
    case Accept(p, level) => WriteIsDirect(t, p, level);
    case Issue(p, level) => WriteIsDirect(t.DrawNumber(), p.(num := t.nextNum), level);
    case Look(k) => if t.Expired(k) { WriteIsDirect(t, t.w4rQ[k].pdu, MESSAGE); }
    case _ =>
  }

  /** From an empty queue and without write errors, each accepted PDU is written once, at once and in turn. */
  lemma EachAcceptedWrittenOnce(cfg: Config, t: nat, es: seq<Event>)
    requires Legal(Init(cfg, [], t), es) && forall e | e in es :: !e.WriteError?
    ensures Direct(After(Init(cfg, [], t), es).tx)
  {
    hide Step, Act, Doable, Actions;
    var init := Init(cfg, [], t);
    NoErrorsNoFailures(init, es);
    forall u, a: Action | Direct(u) && Doable(u, a) && !a.Fail? ensures Direct(Act(u, a)) {
      ActIsDirect(u, a);
    }
    KeptByRun(Direct, (a: Action) => !a.Fail?, init, es, |es|);
    AtEnds(init, es);
  }

  // ---------------------------------------------------------------- answers

  // The requests of the message centre that are owed an answer, by the state they arrive in.
  predicate Answerable(r: Received) {
    && r.decodes
    && ((r.pdu.id == ENQUIRE_LINK && r.state != CLOSED)
        || (r.pdu.id == UNBIND && r.state.Bound())
        || Deliverable(r))
  }

  predicate Deliverable(r: Received) {
    r.decodes && r.pdu.id == DELIVER_SM && (r.state == BOUND_RX || r.state == BOUND_TRX)
  }

  function Answers(rs: seq<Received>): seq<Pdu> {
    if rs == [] then []
    else Answers(rs[..|rs| - 1]) + if Answerable(rs[|rs| - 1]) then [ResponseTo(rs[|rs| - 1].pdu)] else []
  }

  function Delivered(rs: seq<Received>): seq<Pdu> {
    if rs == [] then []
    else Delivered(rs[..|rs| - 1]) + if Deliverable(rs[|rs| - 1]) then [rs[|rs| - 1].pdu] else []
  }

  // Of what was accepted, the responses.
  function Responses(ts: seq<Tagged>): seq<Pdu> {
    if ts == [] then []
    else Responses(ts[..|ts| - 1]) + if ts[|ts| - 1].level == RESPONSE then [ts[|ts| - 1].pdu] else []
  }

  function ActionResponses(acts: seq<Action>): seq<Pdu> {
    if acts == [] then []
    else
      var a := acts[|acts| - 1];
      ActionResponses(acts[..|acts| - 1]) + if a.Accept? && a.level == RESPONSE then [a.pdu] else []
  }

  lemma ResponsesSnoc(ts: seq<Tagged>, t: Tagged)
    ensures Responses(ts + [t]) == Responses(ts) + if t.level == RESPONSE then [t.pdu] else []
  {
    assert (ts + [t])[..|ts|] == ts;
  }

  lemma ActAccepts(t: Transmitter, a: Action)
    requires Doable(t, a) && (a.Issue? ==> a.level == SESSION)
    ensures Responses(Act(t, a).accepted) == Responses(t.accepted) + if a.Accept? && a.level == RESPONSE then [a.pdu] else []
  {
    hide Responses, Transmitter.DoWrite, Transmitter.WritePdu;
    match a
    case Accept(p, level) =>
      HandOverFrame(t, p, level);
      ResponsesSnoc(t.accepted, Tagged(p, level));
    case Issue(p, level) =>
      HandOverFrame(t.DrawNumber(), p.(num := t.nextNum), level);
      ResponsesSnoc(t.accepted, Tagged(p.(num := t.nextNum), level));
    case Look(k) =>
      if t.Expired(k) {
        HandOverFrame(t, t.w4rQ[k].pdu, MESSAGE);
        ResponsesSnoc(t.accepted, Tagged(t.w4rQ[k].pdu, MESSAGE));
      }
    case Complete(i, _) => if !t.txQ.Empty() { WriteFrame(t.Filed(i)); }
    case _ =>
  }

  lemma {:induction false} ActionsAccept(t: Transmitter, acts: seq<Action>)
    requires AllDoable(t, acts) && forall a | a in acts :: a.Issue? ==> a.level == SESSION
    ensures Responses(Perform(t, acts).accepted) == Responses(t.accepted) + ActionResponses(acts)
  {
    hide Act, Doable;
    if acts != [] {
      ActionsAccept(t, acts[..|acts| - 1]);
      ActAccepts(Perform(t, acts[..|acts| - 1]), acts[|acts| - 1]);
    }
  }

  lemma {:induction false} LooksRespondNothing(keys: seq<nat>)
    ensures ActionResponses(Looks(keys)) == []
  {
    if keys != [] {
      LooksRespondNothing(keys[..|keys| - 1]);
      assert Looks(keys)[..|Looks(keys)| - 1] == Looks(keys[..|keys| - 1]);
    }
  }

  lemma OthersReceiveNothing(s: Session, e: Event)
    requires Enabled(s, e) && !e.BodyOk?
    ensures Step(s, e).received == s.received && Step(s, e).rxQ == s.rxQ
  {
    hide HandleBodyOk, Transmitter.DoWrite, Transmitter.WriteOk, Transmitter.Sweep;
  }

  lemma OthersRespondNothing(s: Session, e: Event)
    requires Enabled(s, e) && !e.BodyOk?
    ensures ActionResponses(Actions(s, e)) == []
    ensures forall a | a in Actions(s, e) :: a.Issue? ==> a.level == SESSION
  {
    hide ActionResponses, Reacts, ReactionActions;
    NoResponses();
    match e
    case AgeTimer(_) =>
      LooksRespondNothing(Ascending(s.tx.w4rQ.Keys));
      LooksOnly(Ascending(s.tx.w4rQ.Keys));
    case Connected(_) =>
      SingleResponses(Open);
      PairResponses(Open, Issue(BindRequest(s.cfg), SESSION));
      SingleResponses(Pause(5 * SECOND));
    case Close =>
      SingleResponses(Shut);
      PairResponses(Shut, Pause(SECOND));
    case WriteOk(i) => SingleResponses(Complete(i, s.ctl.state.Bound()));
    case WriteError(stale, j) => SingleResponses(Fail(stale, j));
    case Send(p) => SingleResponses(Accept(p, MESSAGE));
    case Tick(d) => SingleResponses(Pause(d));
    case LinkTimer(_) => SingleResponses(Issue(LINK_TEST, SESSION));
    case _ => SingleResponses(Accept(UNBIND_REQUEST, SESSION));
  }

  // What one event adds to the answers owed and to the messages received.
  lemma EventAnswers(s: Session, e: Event)
    requires Enabled(s, e)
    ensures forall a | a in Actions(s, e) :: a.Issue? ==> a.level == SESSION
    ensures e.BodyOk? ==>
      && ActionResponses(Actions(s, e)) == Answers([Received(e.pdu, s.ctl.state, e.decodes)])
      && Step(s, e).received == s.received + [Received(e.pdu, s.ctl.state, e.decodes)]
      && Step(s, e).rxQ == s.rxQ + Delivered([Received(e.pdu, s.ctl.state, e.decodes)])
    ensures !e.BodyOk? ==> ActionResponses(Actions(s, e)) == [] && Step(s, e).received == s.received && Step(s, e).rxQ == s.rxQ
  {
    if e.BodyOk? {
      hide HandleBodyOk, Actions;
      BodyAnswers(s, e.pdu, e.decodes);
    } else {
      hide Step, Actions;
      OthersReceiveNothing(s, e);
      OthersRespondNothing(s, e);
    }
  }

  lemma NoResponses()
    ensures ActionResponses([]) == []
  {
  }

  lemma SingleResponses(a: Action)
    ensures ActionResponses([a]) == if a.Accept? && a.level == RESPONSE then [a.pdu] else []
  {
    assert [a][..0] == [];
  }

  lemma PairResponses(a: Action, b: Action)
    ensures ActionResponses([a, b]) == ActionResponses([a]) + if b.Accept? && b.level == RESPONSE then [b.pdu] else []
  {
    assert [a, b][..1] == [a];
  }

  // The reactions that answer are those to requests owed an answer.
  lemma AnswersWhenOwed(state: SessionState, p: Pdu, decodes: bool)
    ensures var r := Reacts(state, p, decodes);
            && ((r == Respond || r == Deliver || r == ObeyUnbind) <==> Answerable(Received(p, state, decodes)))
            && (r == Deliver <==> Deliverable(Received(p, state, decodes)))
  {
  }

  lemma ReactionAnswers(cfg: Config, state: SessionState, p: Pdu, decodes: bool)
    ensures var acts := [Read(p)] + ReactionActions(cfg, state, p, Reacts(state, p, decodes));
            && ActionResponses(acts) == Answers([Received(p, state, decodes)])
            && forall a | a in acts :: a.Issue? ==> a.level == SESSION
    ensures Reacts(state, p, decodes) == Deliver <==> Deliverable(Received(p, state, decodes))
  {
    hide Reacts, Answerable, Deliverable, ActionResponses;
    var r := Received(p, state, decodes);
    assert [Read(p)] + [] == [Read(p)] && [Read(p)] + [Accept(ResponseTo(p), RESPONSE)] == [Read(p), Accept(ResponseTo(p), RESPONSE)];
    assert [Read(p)] + [Issue(BindRequest(cfg), SESSION)] == [Read(p), Issue(BindRequest(cfg), SESSION)];
    assert [Read(p)] + [Accept(UNBIND_REQUEST, SESSION)] == [Read(p), Accept(UNBIND_REQUEST, SESSION)];
    AnswersWhenOwed(state, p, decodes);
    assert [r][..0] == [];
    assert Answers([r]) == if Answerable(r) then [ResponseTo(p)] else [];
    SingleResponses(Read(p));
    PairResponses(Read(p), Issue(BindRequest(cfg), SESSION));
    PairResponses(Read(p), Accept(ResponseTo(p), RESPONSE));
    PairResponses(Read(p), Accept(UNBIND_REQUEST, SESSION));
  }

  lemma BodyAnswers(s: Session, p: Pdu, decodes: bool)
    requires s.ctl.bodies > 0
    ensures var r := Received(p, s.ctl.state, decodes);
            && ActionResponses(Actions(s, BodyOk(p, decodes))) == Answers([r])
            && HandleBodyOk(s, p, decodes).received == s.received + [r]
            && HandleBodyOk(s, p, decodes).rxQ == s.rxQ + Delivered([r])
    ensures forall a | a in Actions(s, BodyOk(p, decodes)) :: a.Issue? ==> a.level == SESSION
  {
    hide HandleBodyOk, Reacts, Answers, ActionResponses, ReactionActions;
    ReadingReacts(s, p, decodes);
    ReactionAnswers(s.cfg, s.ctl.state, p, decodes);
    assert [Received(p, s.ctl.state, decodes)][..0] == [];
  }

  lemma AnswersSnoc(rs: seq<Received>, r: Received)
    ensures Answers(rs + [r]) == Answers(rs) + Answers([r]) && Delivered(rs + [r]) == Delivered(rs) + Delivered([r])
  {
    assert (rs + [r])[..|rs|] == rs;
    assert [r][..0] == [];
  }

  /** In every run the responses accepted for sending are the answers to the requests owed one, each once and in
      turn, and every message delivered by the message centre is in the receive queue. */
  lemma {:induction false} EachRequestAnsweredOnce(init: Session, es: seq<Event>)
    requires Legal(init, es) && init.tx.accepted == [] && init.received == [] && init.rxQ == []
    ensures var s := After(init, es); Responses(s.tx.accepted) == Answers(s.received) && s.rxQ == Delivered(s.received)
  {
    hide Step, Actions, Answers, Delivered, Responses;
    if es == [] {
      assert Responses([]) == [] && Answers([]) == [] && Delivered([]) == [] by { NothingAnswered(); }
    } else {
      var s, e := After(init, es[..|es| - 1]), es[|es| - 1];
      EachRequestAnsweredOnce(init, es[..|es| - 1]);
      EventAnswers(s, e);
      TransmissionRefines(s, e);
      ActionsAccept(s.tx, Actions(s, e));
      if e.BodyOk? {
        AnswersSnoc(s.received, Received(e.pdu, s.ctl.state, e.decodes));
      }
    }
  }

  lemma NothingAnswered()
    ensures Responses([]) == [] && Answers([]) == [] && Delivered([]) == []
  {
  }

  function DeliverAcks(ps: seq<Pdu>): seq<Pdu> {
    if ps == [] then []
    else DeliverAcks(ps[..|ps| - 1]) + if ps[|ps| - 1].id == DELIVER_SM_RESP then [ps[|ps| - 1]] else []
  }

  function AllAnswered(ps: seq<Pdu>): seq<Pdu> {
    seq(|ps|, i requires 0 <= i < |ps| => ResponseTo(ps[i]))
  }

  lemma AcksSnoc(ps: seq<Pdu>, p: Pdu)
    ensures DeliverAcks(ps + [p]) == DeliverAcks(ps) + if p.id == DELIVER_SM_RESP then [p] else []
    ensures AllAnswered(ps + [p]) == AllAnswered(ps) + [ResponseTo(p)]
  {
    assert (ps + [p])[..|ps|] == ps;
  }

  lemma {:induction false} DeliveredAreAcked(rs: seq<Received>)
    ensures DeliverAcks(Answers(rs)) == AllAnswered(Delivered(rs))
  {
    hide DeliverAcks, AllAnswered;
    if rs == [] {
      assert DeliverAcks([]) == AllAnswered([]) by { NothingAcked(); }
    } else {
      var before, r := rs[..|rs| - 1], rs[|rs| - 1];
      DeliveredAreAcked(before);
      AcksSnoc(Answers(before), ResponseTo(r.pdu));
      AcksSnoc(Delivered(before), r.pdu);
      assert Answers(before) + [] == Answers(before) && Delivered(before) + [] == Delivered(before);
    }
  }

  lemma NothingAcked()
    ensures DeliverAcks([]) == AllAnswered([])
  {
  }

  /** At any time the acknowledgements of delivered messages, all without error, are those of the messages that are
      in the receive queue: none is acknowledged that was not put there. */
  lemma {:induction false} AckedOnlyIfQueued(cfg: Config, backlog: seq<Pdu>, t: nat, es: seq<Event>)
    requires Legal(Init(cfg, backlog, t), es)
    ensures var s := After(Init(cfg, backlog, t), es); DeliverAcks(Responses(s.tx.accepted)) == AllAnswered(s.rxQ)
  {
    hide Step;
    EachRequestAnsweredOnce(Init(cfg, backlog, t), es);
    DeliveredAreAcked(After(Init(cfg, backlog, t), es).received);
  }

  // ---------------------------------------------------------------- answers on the wire

  function WireResponses(ws: seq<Sent>): seq<Pdu> {
    if ws == [] then []
    else WireResponses(ws[..|ws| - 1]) + if ws[|ws| - 1].level == RESPONSE then [ws[|ws| - 1].pdu] else []
  }

  lemma {:induction false} WireFollowsAccepted(ws: seq<Sent>, ts: seq<Tagged>)
    requires |ws| == |ts| && forall i | 0 <= i < |ws| :: WrittenAs(ws[i], ts[i])
    ensures |WireResponses(ws)| == |Responses(ts)|
    ensures forall i | 0 <= i < |WireResponses(ws)| ::
      var w, a := WireResponses(ws)[i], Responses(ts)[i];
      w.Bare() == a.Bare() && (a.num > SEQ_MIN ==> w == a)
  {
    if ws != [] {
      WireFollowsAccepted(ws[..|ws| - 1], ts[..|ts| - 1]);
      assert WrittenAs(ws[|ws| - 1], ts[|ts| - 1]);
    }
  }

  /** Without write errors and from an empty queue, the responses on the wire are the answers to the requests owed
      one: as many, in turn, and with the request's own number whenever that is above the minimum. */
  lemma {:induction false} EachAnswerOnWireOnce(cfg: Config, t: nat, es: seq<Event>)
    requires Legal(Init(cfg, [], t), es) && forall e | e in es :: !e.WriteError?
    ensures var s := After(Init(cfg, [], t), es);
            && |WireResponses(s.tx.wire)| == |Answers(s.received)|
            && forall i | 0 <= i < |WireResponses(s.tx.wire)| ::
                 var w, a := WireResponses(s.tx.wire)[i], Answers(s.received)[i];
                 w.Bare() == a.Bare() && w.status == ESME_ROK && (a.num > SEQ_MIN ==> w == a)
  {
    hide Step, Actions;
    var init := Init(cfg, [], t);
    var s := After(init, es);
    EachAcceptedWrittenOnce(cfg, t, es);
    EachRequestAnsweredOnce(init, es);
    WireFollowsAccepted(s.tx.wire, s.tx.accepted);
    AnswersAreOk(s.received);
    forall i | 0 <= i < |WireResponses(s.tx.wire)| ensures WireResponses(s.tx.wire)[i].status == ESME_ROK {
      assert WireResponses(s.tx.wire)[i].Bare() == Answers(s.received)[i].Bare();
    }
  }

  lemma {:induction false} AnswersAreOk(rs: seq<Received>)
    ensures forall i | 0 <= i < |Answers(rs)| :: Answers(rs)[i].status == ESME_ROK
  {
    if rs != [] {
      AnswersAreOk(rs[..|rs| - 1]);
    }
  }

  /** An answer that is written at once carries the number of its request exactly when that is above the minimum, or
      happens to be the next to be drawn. */
  lemma AnswerKeepsNumberIff(t: Transmitter, p: Pdu)
    requires t.txQ.Empty()
    ensures var w := t.DoWrite(ResponseTo(p), RESPONSE).wire;
            |w| == |t.wire| + 1 && (w[|t.wire|].pdu.num == p.num <==> p.num > SEQ_MIN || p.num == t.nextNum)
  {
  }
}

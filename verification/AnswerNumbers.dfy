// What the engine's answers are, and under which number they go out.
module AnswerNumbers {
  import opened Smpp
  import opened SequenceNumbers
  import opened TransmitQueue
  import opened Transmitter
  import opened Session
  import opened Refinement
  import opened Numbering
  import opened Accounting
  import opened Binding

  // ---------------------------------------------------------------- in kind

  // The requests owed an answer.
  function Owed(rs: seq<Received>): seq<Pdu> {
    if rs == [] then [] else Owed(rs[..|rs| - 1]) + if Answerable(rs[|rs| - 1]) then [rs[|rs| - 1].pdu] else []
  }

  // a answers r: enquire_link with enquire_link_resp, unbind with unbind_resp, deliver_sm with a deliver_sm_resp that
  // carries an empty message id; always without error.
  predicate InKind(a: Pdu, r: Pdu) {
    && a.status == 0
    && ((r.id == 0x0000_0015 && a.id == 0x8000_0015 && a.body == [])
        || (r.id == 0x0000_0006 && a.id == 0x8000_0006 && a.body == [])
        || (r.id == 0x0000_0005 && a.id == 0x8000_0005 && a.body == [0]))
  }

  lemma {:induction false} OwedInKind(rs: seq<Received>)
    ensures |Answers(rs)| == |Owed(rs)|
    ensures forall i | 0 <= i < |Owed(rs)| :: InKind(Answers(rs)[i], Owed(rs)[i]) && Answers(rs)[i].num == Owed(rs)[i].num
  {
    if rs != [] {
      OwedInKind(rs[..|rs| - 1]);
    }
  }

  /** In every run, with any backlog and any write errors, the responses the engine hands over to be sent are, in turn and
      one each, answers in kind to the requests owed one, under their numbers. */
  lemma {:induction false} ResponsesInKind(cfg: Config, backlog: seq<Pdu>, t: nat, es: seq<Event>)
    requires Legal(Init(cfg, backlog, t), es)
    ensures var s := After(Init(cfg, backlog, t), es);
            && |Responses(s.tx.accepted)| == |Owed(s.received)|
            && forall i | 0 <= i < |Owed(s.received)| ::
                 var a, r := Responses(s.tx.accepted)[i], Owed(s.received)[i]; InKind(a, r) && a.num == r.num
  {
    hide Step, Responses, Answers, Owed, InKind;
    EachRequestAnsweredOnce(Init(cfg, backlog, t), es);
    OwedInKind(After(Init(cfg, backlog, t), es).received);
  }

  /** From an empty queue and without write errors the same holds of the responses on the wire, where the number is kept
      if it is above the minimum. */
  lemma {:induction false} WireAnswersInKind(cfg: Config, t: nat, es: seq<Event>)
    requires Legal(Init(cfg, [], t), es) && forall e | e in es :: !e.WriteError?
    ensures var s := After(Init(cfg, [], t), es);
            && |WireResponses(s.tx.wire)| == |Owed(s.received)|
            && forall i | 0 <= i < |Owed(s.received)| ::
                 var a, r := WireResponses(s.tx.wire)[i], Owed(s.received)[i]; InKind(a, r) && (r.num > 1 ==> a.num == r.num)
  {
    hide Step, WireResponses, Answers, Owed;
    EachAnswerOnWireOnce(cfg, t, es);
    var s := After(Init(cfg, [], t), es);
    OwedInKind(s.received);
    forall i | 0 <= i < |Owed(s.received)| ensures InKind(WireResponses(s.tx.wire)[i], Owed(s.received)[i]) {
      var w, a := WireResponses(s.tx.wire)[i], Answers(s.received)[i];
      assert w.Bare() == a.Bare();
      assert w.id == a.id && w.status == a.status && w.body == a.body;
    }
  }

  // ---------------------------------------------------------------- under which number

  // Within a cycle of numbers, all that was written carries a number above the minimum.
  ghost predicate WiresAbove(t: Transmitter) {
    t.nextNum == Nth(t.draws) && (Unwrapped(t) ==> forall i | 0 <= i < |t.wire| :: t.wire[i].pdu.num > SEQ_MIN)
  }

  lemma WriteAbove(t: Transmitter)
    requires WiresAbove(t) && !t.txQ.Empty() && (t.draws > 0 || t.txQ.Front().pdu.num > SEQ_MIN)
    ensures WiresAbove(t.WritePdu()) && t.draws <= t.WritePdu().draws
  {
    var u, p := t.WritePdu(), t.txQ.Front().pdu;
    assert u.wire == t.wire + [u.wire[|t.wire|]] && u.wire[|t.wire|].pdu.num == t.NumberFor(p);
    if p.num <= SEQ_MIN && Unwrapped(u) {
      DrawNext(t);
    }
  }

  lemma HandOverAbove(t: Transmitter, p: Pdu, level: Level)
    requires WiresAbove(t) && t.draws > 0
    ensures WiresAbove(t.DoWrite(p, level)) && t.draws <= t.DoWrite(p, level).draws
  {
    hide Transmitter.WritePdu;
    if t.txQ.Empty() {
      WriteAbove(t.Queued(p, level));
    }
  }

  lemma ActAbove(t: Transmitter, a: Action)
    requires WiresAbove(t) && Doable(t, a) && (t.draws > 0 || Early(a))
    ensures WiresAbove(Act(t, a)) && t.draws <= Act(t, a).draws
  {
    hide Transmitter.DoWrite, Transmitter.WritePdu;
    match a
    case Accept(p, level) => HandOverAbove(t, p, level);
    case Issue(p, level) => HandOverAbove(t.DrawNumber(), p.(num := t.nextNum), level);
    case Look(k) => if t.Expired(k) { HandOverAbove(t, t.w4rQ[k].pdu, MESSAGE); }
    case Complete(i, _) => if !t.txQ.Empty() { WriteAbove(t.Filed(i)); }
    case _ =>
  }

  lemma {:induction false} ActionsAbove(t: Transmitter, acts: seq<Action>)
    requires AllDoable(t, acts) && WiresAbove(t) && forall a | a in acts :: t.draws > 0 || Early(a)
    ensures WiresAbove(Perform(t, acts)) && t.draws <= Perform(t, acts).draws
  {
    hide Act, Doable, WiresAbove;
    if acts != [] {
      ActionsAbove(t, acts[..|acts| - 1]);
      ActAbove(Perform(t, acts[..|acts| - 1]), acts[|acts| - 1]);
    }
  }

  lemma EventAbove(s: Session, e: Event)
    requires Enabled(s, e) && WiresAbove(s.tx) && Started(s)
    ensures WiresAbove(Step(s, e).tx) && Started(Step(s, e))
  {
    hide Step, WiresAbove, Actions, Perform;
    TransmissionRefines(s, e);
    if s.tx.draws == 0 {
      StartsEarly(s, e);
    }
    ActionsAbove(s.tx, Actions(s, e));
  }

  /** In every run within one cycle of numbers, with any backlog and any write errors, nothing goes out under the minimum
      or under no number: the first bind uses the minimum up. */
  lemma {:induction false} NothingUnderMinimum(cfg: Config, backlog: seq<Pdu>, t: nat, es: seq<Event>)
    requires Legal(Init(cfg, backlog, t), es)
    ensures WiresAbove(After(Init(cfg, backlog, t), es).tx) && Started(After(Init(cfg, backlog, t), es))
  {
    hide Step;
    if es != [] {
      NothingUnderMinimum(cfg, backlog, t, es[..|es| - 1]);
      EventAbove(After(Init(cfg, backlog, t), es[..|es| - 1]), es[|es| - 1]);
    }
  }

  lemma {:induction false} ResponsesAbove(ws: seq<Sent>)
    requires forall i | 0 <= i < |ws| :: ws[i].pdu.num > SEQ_MIN
    ensures forall i | 0 <= i < |WireResponses(ws)| :: WireResponses(ws)[i].num > SEQ_MIN
  {
    if ws != [] {
      ResponsesAbove(ws[..|ws| - 1]);
    }
  }

  /** Within one cycle of numbers, from an empty queue and without write errors, the answers go out one each and in turn,
      and an answer carries the number of its request exactly if that is above the minimum. */
  lemma {:induction false} AnswerCarriesNumberIff(cfg: Config, t: nat, es: seq<Event>, i: nat)
    requires Legal(Init(cfg, [], t), es) && forall e | e in es :: !e.WriteError?
    requires var s := After(Init(cfg, [], t), es); Unwrapped(s.tx) && i < |WireResponses(s.tx.wire)|
    ensures var s := After(Init(cfg, [], t), es);
            && |WireResponses(s.tx.wire)| == |Answers(s.received)|
            && (WireResponses(s.tx.wire)[i] == Answers(s.received)[i] <==> Answers(s.received)[i].num > SEQ_MIN)
  {
    hide Step, WireResponses, Answers;
    EachAnswerOnWireOnce(cfg, t, es);
    NothingUnderMinimum(cfg, [], t, es);
    ResponsesAbove(After(Init(cfg, [], t), es).tx.wire);
  }

  // A link test of the message centre under the minimum, a number that section 4.7.24 of SMPP v5.0 allows it.
  const FIRST_TEST: Pdu := LINK_TEST.(num := SEQ_MIN)

  /** So the first request of a message centre that counts from the minimum is answered under another number: a bound
      session answers its link test under the number that it draws next. Binding.GetsReady leads to such a session. */
  lemma FirstTestMisanswered(s: Session)
    requires Ready(s)
    ensures var es := [HeaderOk, BodyOk(FIRST_TEST, true)];
            && Legal(s, es) && var w := After(s, es).tx.wire;
            && |w| == |s.tx.wire| + 1 && w[|s.tx.wire|].level == RESPONSE
            && w[|s.tx.wire|].pdu == ResponseTo(FIRST_TEST).(num := SEQ_MIN + 2)
  {
    hide Step;
    AnswersTest(s);
    LegalPair(s, HeaderOk, BodyOk(FIRST_TEST, true));
    assert Nth(1) == Succ(Nth(0)) && Nth(2) == Succ(Nth(1));
  }

  lemma AnswersTest(s: Session)
    requires s.ctl.headers > 0 && s.ctl.state.Bound() && s.tx.txQ.Empty()
    ensures Enabled(s, HeaderOk) && Enabled(Step(s, HeaderOk), BodyOk(FIRST_TEST, true))
    ensures var w := Step(Step(s, HeaderOk), BodyOk(FIRST_TEST, true)).tx.wire;
            && |w| == |s.tx.wire| + 1 && w[|s.tx.wire|].level == RESPONSE
            && w[|s.tx.wire|].pdu == ResponseTo(FIRST_TEST).(num := s.tx.nextNum)
  {
  }
}

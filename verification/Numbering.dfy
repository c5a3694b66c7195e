// Sequence numbers of requests (sections 2.6 and 3.2.1.4 of SMPP v5.0).
module Numbering {
  import opened Smpp
  import opened SequenceNumbers
  import opened TransmitQueue
  import opened Transmitter
  import opened Session
  import opened Refinement

  // Everywhere a PDU can be.
  predicate Waits(q: TxQ, p: Pdu) { p in q.session || p in q.response || p in q.message }

  ghost predicate Used(t: Transmitter, p: Pdu) {
    || (t.txQ.lastPop.Some? && t.txQ.lastPop.value.pdu == p)
    || (exists i | 0 <= i < |t.wire| :: t.wire[i].pdu == p)
    || (exists k | k in t.w4rQ :: t.w4rQ[k].pdu == p)
  }

  ghost predicate Known(t: Transmitter, p: Pdu) { Waits(t.txQ, p) || Used(t, p) }

  predicate Numbered(p: Pdu) { p.IsRequest() && p.num > SEQ_MIN }

  // No cycle of numbers has been used up.
  predicate Unwrapped(t: Transmitter) { t.draws <= RANGE }

  // A number stands for one request, every request that has been written has one, and all were drawn.
  ghost predicate Distinct(t: Transmitter) {
    && (forall p, q | Known(t, p) && Known(t, q) && Numbered(p) && Numbered(q) && p.num == q.num :: p == q)
    && (forall p | Known(t, p) && Numbered(p) :: p.num < SEQ_MIN + t.draws)
    && (forall p | Used(t, p) && p.IsRequest() :: p.num > SEQ_MIN)
  }

  ghost predicate Numbers(t: Transmitter) {
    t.nextNum == Nth(t.draws) && (Unwrapped(t) ==> Distinct(t))
  }

  // u knows nothing that t does not, but for p; and nothing is used in u that was not in t, but for p.
  ghost predicate Adds(t: Transmitter, u: Transmitter, p: Pdu) {
    && (forall x | Known(u, x) :: Known(t, x) || x == p)
    && (forall x | Used(u, x) :: Used(t, x) || x == p)
  }

  // A request that is new to t has the number just drawn for it, or none; what is old stays as it is.
  lemma AddedNumbers(t: Transmitter, u: Transmitter, p: Pdu)
    requires Distinct(t) && Adds(t, u, p) && t.draws <= u.draws
    requires Known(t, p) || !Numbered(p) || (p.num == SEQ_MIN + t.draws && t.draws < u.draws)
    requires Used(u, p) && p.IsRequest() ==> p.num > SEQ_MIN
    ensures Distinct(u)
  {
  }

  lemma QueueAdds(t: Transmitter, p: Pdu, level: Level)
    ensures Adds(t, t.Queued(p, level), p) && forall x | Used(t.Queued(p, level), x) :: Used(t, x)
  {
  }

  lemma DrawNext(t: Transmitter)
    requires t.nextNum == Nth(t.draws) && t.draws < RANGE
    ensures t.nextNum == SEQ_MIN + t.draws
  {
    NthIsCyclic(t.draws);
    assert t.draws % RANGE == t.draws;
  }

  lemma WriteAdds(t: Transmitter)
    requires !t.txQ.Empty()
    ensures var p := t.txQ.Front().pdu; Known(t, p) && Adds(t, t.WritePdu(), p.(num := t.NumberFor(p)))
  {
    var u := t.WritePdu();
    var p := t.txQ.Front().pdu;
    var w := p.(num := t.NumberFor(p));
    assert u.wire == t.wire + [u.wire[|t.wire|]] && u.wire[|t.wire|].pdu == w;
    forall x | Used(u, x) ensures Used(t, x) || x == w {
      if i :| 0 <= i < |u.wire| && u.wire[i].pdu == x {
        if i < |t.wire| {
          assert t.wire[i].pdu == x;
        }
      }
    }
  }

  lemma WriteNumbers(t: Transmitter)
    requires !t.txQ.Empty() && Numbers(t) && (t.draws > 0 || t.txQ.Front().pdu.num > SEQ_MIN)
    ensures Numbers(t.WritePdu()) && t.draws <= t.WritePdu().draws
  {
    hide Distinct;
    var u, p := t.WritePdu(), t.txQ.Front().pdu;
    WriteAdds(t);
    if Unwrapped(u) {
      if p.num <= SEQ_MIN {
        DrawNext(t);
      }
      AddedNumbers(t, u, p.(num := t.NumberFor(p)));
    }
  }

  lemma HandOverNumbers(t: Transmitter, p: Pdu, level: Level)
    requires Numbers(t) && t.draws > 0
    requires Known(t, p) || !Numbered(p)
    ensures Numbers(t.DoWrite(p, level)) && t.draws <= t.DoWrite(p, level).draws
  {
    hide Distinct, Transmitter.WritePdu, Known, Used;
    var q := t.Queued(p, level);
    QueueAdds(t, p, level);
    if Unwrapped(t) {
      QueuedNumbers(t, p, level);
    }
    if t.txQ.Empty() {
      WriteNumbers(q);
    }
  }

  lemma QueuedNumbers(t: Transmitter, p: Pdu, level: Level)
    requires Distinct(t) && (Known(t, p) || !Numbered(p))
    ensures Distinct(t.Queued(p, level))
  {
    QueueAdds(t, p, level);
  }

  lemma IssueNumbers(t: Transmitter, p: Pdu, level: Level)
    requires Numbers(t)
    ensures Numbers(t.DoWriteNumbered(p, level)) && t.draws < t.DoWriteNumbered(p, level).draws
  {
    hide Distinct, Transmitter.WritePdu, Known, Used;
    var d, p' := t.DrawNumber(), p.(num := t.nextNum);
    var q := d.Queued(p', level);
    if Unwrapped(q) {
      DrawNext(t);
      IssuedNumbers(t, p', level);
    }
    if t.txQ.Empty() {
      WriteNumbers(q);
    }
  }

  lemma IssuedNumbers(t: Transmitter, p: Pdu, level: Level)
    requires Distinct(t) && p.num == SEQ_MIN + t.draws
    ensures Distinct(t.DrawNumber().Queued(p, level))
  {
    var q := t.DrawNumber().Queued(p, level);
    forall x | Used(q, x) ensures Used(t, x) {
    }
    forall x | Known(q, x) ensures Known(t, x) || x == p {
    }
  }

  // What only moves or drops PDUs keeps the numbers.
  lemma FewerKnown(t: Transmitter, u: Transmitter)
    requires Numbers(t) && u.nextNum == t.nextNum && u.draws == t.draws
    requires forall x | Known(u, x) :: Known(t, x)
    requires forall x | Used(u, x) :: Used(t, x)
    ensures Numbers(u)
  {
  }

  lemma FilingNumbers(t: Transmitter, i: nat)
    requires Numbers(t) && i < |t.writes|
    ensures Numbers(t.Filed(i)) && t.Filed(i).txQ == t.txQ && t.Filed(i).draws == t.draws
  {
    var u := t.Filed(i);
    forall x | Used(u, x) ensures Used(t, x) {
    }
    FewerKnown(t, u);
  }

  lemma OtherNumbers(t: Transmitter, a: Action)
    requires Numbers(t) && Doable(t, a) && (a.Fail? || a.Read? || a.Open? || a.Shut? || a.Pause?)
    ensures Numbers(Act(t, a)) && Act(t, a).draws == t.draws
  {
    var u := Act(t, a);
    forall x | Used(u, x) ensures Used(t, x) {
    }
    forall x | Known(u, x) ensures Known(t, x) {
    }
    FewerKnown(t, u);
  }

  lemma VisitNumbers(t: Transmitter, k: nat)
    requires Numbers(t) && t.draws > 0 && t.Expired(k)
    ensures Numbers(t.Visit(k)) && t.draws <= t.Visit(k).draws
  {
    hide Distinct, Transmitter.DoWrite, Waits;
    var p := t.w4rQ[k].pdu;
    assert Used(t, p);
    HandOverNumbers(t, p, MESSAGE);
    HandOverFrame(t, p, MESSAGE);
    FewerKnown(t.DoWrite(p, MESSAGE), t.Visit(k));
  }

  // What needs no number to have been drawn before.
  predicate Early(a: Action) { a.Issue? || a.Open? || a.Shut? || a.Pause? || a.Read? }

  // A request handed over by a user comes without a number.
  predicate Unnumbered(a: Action) { a.Accept? ==> !Numbered(a.pdu) }

  lemma ActNumbers(t: Transmitter, a: Action)
    requires Numbers(t) && Doable(t, a) && Unnumbered(a) && (t.draws > 0 || Early(a))
    ensures Numbers(Act(t, a)) && t.draws <= Act(t, a).draws
  {
    hide Distinct, Known, Used, Transmitter.DoWrite, Transmitter.WritePdu, Transmitter.WriteError;
    match a
    case Accept(p, level) => HandOverNumbers(t, p, level);
    case Issue(p, level) => IssueNumbers(t, p, level);
    case Look(k) => if t.Expired(k) { VisitNumbers(t, k); }
    case Complete(i, _) =>
      FilingNumbers(t, i);
      if !t.txQ.Empty() { WriteNumbers(t.Filed(i)); }
    case _ => OtherNumbers(t, a);
  }

  lemma {:induction false} ActionsNumber(t: Transmitter, acts: seq<Action>)
    requires AllDoable(t, acts) && Numbers(t)
    requires forall a | a in acts :: Unnumbered(a) && (t.draws > 0 || Early(a))
    ensures Numbers(Perform(t, acts)) && t.draws <= Perform(t, acts).draws
  {
    hide Act, Doable, Numbers;
    if acts != [] {
      ActionsNumber(t, acts[..|acts| - 1]);
      ActNumbers(Perform(t, acts[..|acts| - 1]), acts[|acts| - 1]);
    }
  }

  // ---------------------------------------------------------------- runs

  // Until the first bind nothing has been set going that writes.
  predicate Started(s: Session) {
    s.tx.draws == 0 ==>
      && s.ctl.state == CLOSED && s.ctl.Reads() == 0 && s.link.None? && s.resp.None?
      && s.tx.writes == [] && s.tx.staleWrites == [] && s.tx.w4rQ == map[]
  }

  lemma StartsEarly(s: Session, e: Event)
    requires Enabled(s, e) && Started(s) && s.tx.draws == 0
    ensures forall a | a in Actions(s, e) :: Early(a)
    ensures Started(Step(s, e))
  {
    hide HandleBodyOk, Transmitter.WritePdu;
    if e.Connected? && e.ok {
      BindDraws(s.tx.Opened(), BindRequest(s.cfg));
    }
  }

  lemma BindDraws(t: Transmitter, p: Pdu)
    ensures t.DoWriteNumbered(p, SESSION).draws > 0
  {
  }

  // The users of the engine hand over requests without a number.
  predicate Submits(e: Event) { e.Send? ==> !Numbered(e.pdu) }

  lemma EventNumbers(s: Session, e: Event)
    requires Enabled(s, e) && Numbers(s.tx) && Started(s) && Submits(e)
    ensures Numbers(Step(s, e).tx) && Started(Step(s, e)) && s.tx.draws <= Step(s, e).tx.draws
  {
    hide Step, Numbers, Actions, Perform;
    TransmissionRefines(s, e);
    AcceptsUnnumbered(s, e);
    if s.tx.draws == 0 {
      StartsEarly(s, e);
    }
    ActionsNumber(s.tx, Actions(s, e));
  }

  lemma AcceptsUnnumbered(s: Session, e: Event)
    requires Enabled(s, e) && Submits(e)
    ensures forall a | a in Actions(s, e) :: Unnumbered(a)
  {
    hide Reacts;
    LooksOnly(Ascending(s.tx.w4rQ.Keys));
    if e.BodyOk? {
      RespondsToRequests(s.ctl.state, e.pdu, e.decodes);
    }
  }

  lemma RespondsToRequests(state: SessionState, p: Pdu, decodes: bool)
    ensures var r := Reacts(state, p, decodes); r == Respond || r == Deliver || r == ObeyUnbind ==> !ResponseTo(p).IsRequest()
  {
  }

  /** In a run that does not use up a cycle of numbers, a number stands for one request: two requests on the wire, in
      the queue or awaiting a response that share one are the same. Each has been drawn, and none that has been
      written carries the minimum, which the first bind uses up. */
  lemma {:induction false} NumberStandsForOneRequest(cfg: Config, backlog: seq<Pdu>, t: nat, es: seq<Event>)
    requires Legal(Init(cfg, backlog, t), es)
    requires (forall p | p in backlog :: !Numbered(p)) && (forall e | e in es :: Submits(e))
    ensures var s := After(Init(cfg, backlog, t), es); Numbers(s.tx) && Started(s)
  {
    hide Step, Numbers;
    var init := Init(cfg, backlog, t);
    if es == [] {
      assert Numbers(init.tx) by { NothingNumbered(cfg, backlog, t); }
    } else {
      var before, e := es[..|es| - 1], es[|es| - 1];
      assert e in es && forall d | d in before :: d in es;
      NumberStandsForOneRequest(cfg, backlog, t, before);
      EventNumbers(After(init, before), e);
    }
  }

  lemma NothingNumbered(cfg: Config, backlog: seq<Pdu>, t: nat)
    requires forall p | p in backlog :: !Numbered(p)
    ensures Numbers(Init(cfg, backlog, t).tx)
  {
  }

  lemma WrittenAreNumbered(u: Transmitter, i: nat)
    requires Distinct(u) && i < |u.wire| && u.wire[i].pdu.IsRequest()
    ensures SEQ_MIN < u.wire[i].pdu.num < SEQ_MIN + u.draws
  {
    assert Used(u, u.wire[i].pdu) && Known(u, u.wire[i].pdu);
  }

  // Users hand over requests without numbers, and the numbers have not run out.
  ghost predicate Ordinary(cfg: Config, backlog: seq<Pdu>, t: nat, es: seq<Event>)
    requires Legal(Init(cfg, backlog, t), es)
  {
    && (forall p | p in backlog :: !Numbered(p)) && (forall e | e in es :: Submits(e))
    && Unwrapped(After(Init(cfg, backlog, t), es).tx)
  }

  lemma OrdinaryBefore(cfg: Config, backlog: seq<Pdu>, t: nat, es: seq<Event>)
    requires es != [] && Legal(Init(cfg, backlog, t), es) && Ordinary(cfg, backlog, t, es)
    ensures Ordinary(cfg, backlog, t, es[..|es| - 1])
  {
    hide Step;
    var init, before := Init(cfg, backlog, t), es[..|es| - 1];
    assert forall d | d in before :: d in es;
    NumberStandsForOneRequest(cfg, backlog, t, before);
    assert es[|es| - 1] in es;
    EventNumbers(After(init, before), es[|es| - 1]);
  }
}

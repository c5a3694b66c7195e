// The window of ten requests over whole runs: exactly which events push past it.
module SendWindow {
  import opened Smpp
  import opened TransmitQueue
  import opened Transmitter
  import opened Session
  import opened Refinement
  import opened Chain
  import Ageing
  import Awaiting
  import Cleanup

  function Max(a: nat, b: nat): nat { if a < b then b else a }

  // Requests awaiting and writes under way have become more than they were, and more than ten.
  predicate Overflows(t: Transmitter, u: Transmitter) { Load(u) > Max(MAX_AWAITING, Load(t)) }

  // The event makes the engine hand a PDU to its transmitter.
  predicate HandsOver(s: Session, e: Event) { exists a :: a in Actions(s, e) && (a.Accept? || a.Issue?) }

  // A completion files one more request and still writes the next PDU, with ten or more waiting or under way.
  predicate Overtakes(t: Transmitter, i: nat, bound: bool)
    requires i < |t.writes|
  {
    && Load(t) >= MAX_AWAITING && bound && !t.txQ.Empty()
    && |t.Filed(i).w4rQ| == |t.w4rQ| + 1 < MAX_AWAITING
  }

  // The event pushes past the window: it hands a PDU to an empty queue on a working socket while ten or more are
  // waiting or under way, and takes no request off the map before; or it is a completion that overtakes another.
  predicate PushesPast(s: Session, e: Event)
    requires Enabled(s, e)
  {
    || (e.WriteOk? && Overtakes(s.tx, e.i, s.ctl.state.Bound()))
    || (HandsOver(s, e) && s.tx.txQ.Empty() && (s.tx.open || e.Connected?) && Load(s.tx) >= MAX_AWAITING
        && (e.BodyOk? ==> s.tx.W4rqPop(e.pdu).w4rQ == s.tx.w4rQ))
  }

  // ---------------------------------------------------------------- actions

  lemma HandOverLoad(t: Transmitter, p: Pdu, level: Level)
    ensures Load(t.DoWrite(p, level)) == Load(t) + (if t.txQ.Empty() && t.open then 1 else 0)
  {
  }

  lemma ActLoad(t: Transmitter, a: Action)
    requires Doable(t, a) && !a.Complete? && !a.Look?
    ensures a.Accept? || a.Issue? ==> Load(Act(t, a)) == Load(t) + (if t.txQ.Empty() && t.open then 1 else 0)
    ensures !a.Accept? && !a.Issue? ==> Load(Act(t, a)) <= Load(t)
  {
    hide Transmitter.DoWrite;
    match a
    case Accept(p, level) => HandOverLoad(t, p, level);
    case Issue(p, level) => HandOverLoad(t.DrawNumber(), p.(num := t.nextNum), level);
    case Read(p) => PopLoad(t, p);
    case _ =>
  }

  lemma PopLoad(t: Transmitter, p: Pdu)
    ensures var u := t.W4rqPop(p);
            && u.txQ == t.txQ && u.open == t.open && u.writes == t.writes
            && |u.w4rQ| == |t.w4rQ| - (if u.w4rQ == t.w4rQ then 0 else 1)
  {
    var u := t.W4rqPop(p);
    if p.IsResponse() {
      if p.num in t.w4rQ {
        assert t.w4rQ.Keys == u.w4rQ.Keys + {p.num} && p.num !in u.w4rQ;
      } else {
        assert u.w4rQ == t.w4rQ;
      }
    }
  }

  lemma FiledSize(t: Transmitter, i: nat)
    requires i < |t.writes|
    ensures |t.w4rQ| <= |t.Filed(i).w4rQ| <= |t.w4rQ| + 1 && |t.Filed(i).writes| == |t.writes| - 1
    ensures t.Filed(i).txQ == t.txQ && t.Filed(i).open == t.open
  {
    var u := t.Filed(i);
    if t.txQ.lastPop.Some? && t.txQ.lastPop.value.pdu.IsRequest() {
      var n := t.txQ.lastPop.value.pdu.num;
      if n in t.w4rQ {
        assert u.w4rQ.Keys == t.w4rQ.Keys;
      } else {
        assert u.w4rQ.Keys == t.w4rQ.Keys + {n};
      }
    }
  }

  lemma CompletionOverflowsIff(t: Transmitter, i: nat, bound: bool)
    requires i < |t.writes| && t.open
    ensures Overflows(t, t.WriteOk(i, bound)) <==> Overtakes(t, i, bound)
  {
    hide Transmitter.Filed, Transmitter.WritePdu;
    FiledSize(t, i);
    if !t.txQ.Empty() {
      NextWrite(t.Filed(i));
    }
  }

  lemma VisitLoad(t: Transmitter, k: nat)
    requires Ageing.WellFiled(t)
    ensures Ageing.WellFiled(t.Visit(k)) && Load(t.Visit(k)) <= Load(t)
  {
    hide Transmitter.DoWrite;
    Ageing.VisitOne(t, k);
    if t.Expired(k) {
      var p := t.w4rQ[k].pdu;
      HandOverLoad(t, p, MESSAGE);
      HandOverFrame(t, p, MESSAGE);
      assert t.w4rQ.Keys == (t.w4rQ - {k}).Keys + {k};
    }
  }

  lemma {:induction false} SweepLoad(t: Transmitter, keys: seq<nat>)
    requires Ageing.WellFiled(t)
    ensures Load(t.Sweep(keys)) <= Load(t)
    decreases |keys|
  {
    hide Transmitter.Visit, Ageing.WellFiled;
    if keys != [] {
      VisitLoad(t, keys[0]);
      SweepLoad(t.Visit(keys[0]), keys[1..]);
    }
  }

  // ---------------------------------------------------------------- events

  lemma NothingHandedOver(s: Session, e: Event)
    requires Enabled(s, e) && (e.WriteOk? || e.WriteError? || e.AgeTimer? || e.Close? || e.Tick? || e.HeaderOk?)
    ensures !HandsOver(s, e)
  {
    LooksOnly(Ascending(s.tx.w4rQ.Keys));
  }

  lemma LoneAction(s: Session, e: Event, a: Action)
    requires Enabled(s, e) && Actions(s, e) == [a] && Doable(s.tx, a) && !a.Complete? && !a.Look? && !e.BodyOk? && !e.Connected?
    requires Step(s, e).tx == Perform(s.tx, [a]) && !e.WriteOk?
    ensures Overflows(s.tx, Step(s, e).tx) <==> PushesPast(s, e)
  {
    hide Step, Actions, Act, Doable;
    One(s.tx, a);
    ActLoad(s.tx, a);
    assert a in Actions(s, e);
  }

  lemma NoAction(s: Session, e: Event)
    requires Enabled(s, e) && Actions(s, e) == [] && Step(s, e).tx == Perform(s.tx, []) && !e.WriteOk?
    ensures Overflows(s.tx, Step(s, e).tx) <==> PushesPast(s, e)
  {
    hide Step, Actions, Act, Doable;
  }

  lemma ReadingOverflowsIff(s: Session, p: Pdu, decodes: bool)
    requires Enabled(s, BodyOk(p, decodes))
    ensures var e := BodyOk(p, decodes); Overflows(s.tx, Step(s, e).tx) <==> PushesPast(s, e)
  {
    hide Step, Act, Doable, Reacts, Perform, AllDoable;
    var e := BodyOk(p, decodes);
    TransmissionRefines(s, e);
    PopLoad(s.tx, p);
    var popped := s.tx.W4rqPop(p);
    assert Doable(s.tx, Read(p)) && Act(s.tx, Read(p)) == popped by { ReadsPop(s.tx, p); }
    var rest := ReactionActions(s.cfg, s.ctl.state, p, Reacts(s.ctl.state, p, decodes));
    One(s.tx, Read(p));
    if rest == [] {
      assert [Read(p)] + [] == [Read(p)];
      assert Actions(s, e) == [Read(p)];
    } else {
      var a := rest[0];
      assert rest == [a] && (a.Accept? || a.Issue?);
      assert Actions(s, e) == [Read(p)] + [a] == [Read(p), a];
      assert a in Actions(s, e);
      assert Doable(popped, a) by { HandOverDoable(popped, a); }
      Two(s.tx, Read(p), a);
      ActLoad(popped, a);
    }
  }

  lemma ReadsPop(t: Transmitter, p: Pdu)
    ensures Doable(t, Read(p)) && Act(t, Read(p)) == t.W4rqPop(p)
  {
  }

  lemma HandOverDoable(t: Transmitter, a: Action)
    requires a.Accept? || a.Issue?
    ensures Doable(t, a)
  {
  }

  lemma ConnectingOverflowsIff(s: Session, ok: bool)
    requires Enabled(s, Connected(ok)) && (!s.tx.open ==> s.tx.writes == [])
    ensures var e := Connected(ok); Overflows(s.tx, Step(s, e).tx) <==> PushesPast(s, e)
  {
    var e := Connected(ok);
    if ok {
      hide Transmitter.DoWrite;
      HandOverLoad(s.tx.Opened().DrawNumber(), BindRequest(s.cfg).(num := s.tx.nextNum), SESSION);
      assert Issue(BindRequest(s.cfg), SESSION) in Actions(s, e);
    }
  }

  lemma ClosingFits(s: Session)
    requires Enabled(s, Close)
    ensures !Overflows(s.tx, Step(s, Close).tx)
  {
  }

  /** An event makes the requests waiting and the writes under way more than they were and more than ten exactly if it
      pushes past the window as said. Where writes complete one at a time only hand-overs do. */
  lemma {:induction false} OverflowsIff(s: Session, e: Event)
    requires Enabled(s, e) && Ageing.WellFiled(s.tx) && (!s.tx.open ==> s.tx.writes == [])
    ensures Overflows(s.tx, Step(s, e).tx) <==> PushesPast(s, e)
    ensures PushesPast(s, e) && Awaiting.Alone(s.tx, e) ==> HandsOver(s, e)
  {
    hide Step, Act, Reacts, Perform, AllDoable, Overflows, PushesPast, Ageing.WellFiled, Overtakes;
    TransmissionRefines(s, e);
    OvertakingNeedsTwo(s, e);
    match e
    case WriteOk(i) => CompletesIff(s, i);
    case BodyOk(p, decodes) => ReadingOverflowsIff(s, p, decodes);
    case Connected(ok) => ConnectingOverflowsIff(s, ok);
    case Close => ClosesIff(s);
    case AgeTimer(_) => SweepsIff(s, e);
    case WriteError(stale, j) => LoneAction(s, e, Fail(stale, j));
    case Tick(d) => LoneAction(s, e, Pause(d));
    case LinkTimer(aborted) => if aborted { NoAction(s, e); } else { LoneAction(s, e, Issue(LINK_TEST, SESSION)); }
    case Send(p) => if Sendable(s.ctl.state, p.id) { LoneAction(s, e, Accept(p, MESSAGE)); } else { NoAction(s, e); }
    case HeaderOk => NoAction(s, e);
    case _ => if Actions(s, e) == [] { NoAction(s, e); } else { LoneAction(s, e, Accept(UNBIND_REQUEST, SESSION)); }
  }

  lemma OvertakingNeedsTwo(s: Session, e: Event)
    requires Enabled(s, e)
    ensures PushesPast(s, e) && Awaiting.Alone(s.tx, e) ==> HandsOver(s, e)
  {
    hide HandsOver, Transmitter.Filed;
  }

  lemma CompletesIff(s: Session, i: nat)
    requires Enabled(s, WriteOk(i)) && s.tx.open
    ensures var e := WriteOk(i); Overflows(s.tx, Step(s, e).tx) <==> PushesPast(s, e)
  {
    hide HandsOver, Overflows, Overtakes, Transmitter.WriteOk;
    CompletionOverflowsIff(s.tx, i, s.ctl.state.Bound());
    NothingHandedOver(s, WriteOk(i));
  }

  lemma ClosesIff(s: Session)
    requires Enabled(s, Close)
    ensures Overflows(s.tx, Step(s, Close).tx) <==> PushesPast(s, Close)
  {
    hide HandsOver, Step, Overflows;
    ClosingFits(s);
    NothingHandedOver(s, Close);
  }

  lemma SweepsIff(s: Session, e: Event)
    requires Enabled(s, e) && e.AgeTimer? && Ageing.WellFiled(s.tx)
    ensures Overflows(s.tx, Step(s, e).tx) <==> PushesPast(s, e)
  {
    hide HandsOver, Step, Transmitter.Sweep, Ageing.WellFiled;
    NothingHandedOver(s, e);
    SweepLoad(s.tx, Ascending(s.tx.w4rQ.Keys));
    if e == AgeTimer(false) {
      Ageing.SweepStep(s);
    } else {
      AbortedIdles(s);
    }
  }

  lemma AbortedIdles(s: Session)
    ensures Enabled(s, AgeTimer(true)) && Step(s, AgeTimer(true)) == s
  {
  }

  // ---------------------------------------------------------------- runs

  lemma {:induction false} FitAt(cfg: Config, backlog: seq<Pdu>, t: nat, es: seq<Event>, k: nat)
    requires Legal(Init(cfg, backlog, t), es) && Numbering.Ordinary(cfg, backlog, t, es) && k <= |es|
    ensures var u := At(Init(cfg, backlog, t), es, k).tx; Ageing.WellFiled(u) && (!u.open ==> u.writes == [])
  {
    hide Step, Ageing.WellFiled, Numbering.Ordinary;
    var init := Init(cfg, backlog, t);
    if k == |es| {
      AtEnds(init, es);
      Ageing.OrdinaryFiles(cfg, backlog, t, es);
      Cleanup.NothingLeaks(cfg, backlog, t, es);
    } else {
      var before := es[..|es| - 1];
      Numbering.OrdinaryBefore(cfg, backlog, t, es);
      FitAt(cfg, backlog, t, before, k);
      assert before[..k] == es[..k];
    }
  }

  /** In an ordinary run the window of ten holds throughout, for requests waiting and writes under way together, exactly
      if no event in it pushes past. */
  lemma {:induction false} WindowHoldsIff(cfg: Config, backlog: seq<Pdu>, t: nat, es: seq<Event>)
    requires Legal(Init(cfg, backlog, t), es) && Numbering.Ordinary(cfg, backlog, t, es)
    ensures var init := Init(cfg, backlog, t);
            (forall k | 0 <= k <= |es| :: Load(At(init, es, k).tx) <= MAX_AWAITING) <==>
            (forall k | 0 <= k < |es| :: !PastAt(init, es, k))
  {
    hide Step, PushesPast, Ageing.WellFiled, Numbering.Ordinary;
    var init := Init(cfg, backlog, t);
    if forall k | 0 <= k <= |es| :: Load(At(init, es, k).tx) <= MAX_AWAITING {
      forall k | 0 <= k < |es| ensures !PastAt(init, es, k) {
        AtStep(init, es, k);
        FitAt(cfg, backlog, t, es, k);
        OverflowsIff(At(init, es, k), es[k]);
        assert Load(At(init, es, k + 1).tx) <= MAX_AWAITING;
      }
    }
    if forall k | 0 <= k < |es| :: !PastAt(init, es, k) {
      forall k | 0 <= k <= |es| ensures Load(At(init, es, k).tx) <= MAX_AWAITING {
        HoldsUpTo(cfg, backlog, t, es, k);
      }
    }
  }

  predicate PastAt(s: Session, es: seq<Event>, k: nat)
    requires Legal(s, es) && k < |es|
  {
    AtStep(s, es, k);
    PushesPast(At(s, es, k), es[k])
  }

  lemma {:induction false} HoldsUpTo(cfg: Config, backlog: seq<Pdu>, t: nat, es: seq<Event>, k: nat)
    requires Legal(Init(cfg, backlog, t), es) && Numbering.Ordinary(cfg, backlog, t, es) && k <= |es|
    requires forall j | 0 <= j < |es| :: !PastAt(Init(cfg, backlog, t), es, j)
    ensures Load(At(Init(cfg, backlog, t), es, k).tx) <= MAX_AWAITING
  {
    hide Step, PushesPast, Ageing.WellFiled, Numbering.Ordinary;
    var init := Init(cfg, backlog, t);
    if k == 0 {
      AtEnds(init, es);
    } else {
      HoldsUpTo(cfg, backlog, t, es, k - 1);
      AtStep(init, es, k - 1);
      FitAt(cfg, backlog, t, es, k - 1);
      assert !PastAt(init, es, k - 1);
      OverflowsIff(At(init, es, k - 1), es[k - 1]);
    }
  }
}

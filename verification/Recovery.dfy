// Whether an engine that was not stopped can still connect, and a run after which it cannot.
module Recovery {
  import opened Smpp
  import opened TransmitQueue
  import opened Transmitter
  import opened Session
  import opened Refinement
  import opened Binding

  // Nothing that can still happen makes the engine connect: nothing is outstanding whose completion would, and nothing
  // can be written whose failure would. A queue that is not empty lets nothing be written; with an empty one, a
  // user's PDU can be while the session is bound, a link test when it is due, and an overdue request when it is swept.
  predicate Hopeless(s: Session) {
    && s.ctl.connects == 0 && s.ctl.Reads() == 0 && (s.ctl.closes > 0 ==> !s.ctl.reconnect) && s.tx.UnderWay() == []
    && (s.tx.txQ.Empty() ==>
          && !s.ctl.state.Bound() && s.ctl.state != OUTBOUND
          && s.link.None? && (s.age.None? || s.tx.w4rQ == map[]))
  }

  // What the transmitter is like that writes nothing: it has something queued, or is asked for nothing.
  ghost predicate Jammed(t: Transmitter) { t.UnderWay() == [] && !t.txQ.Empty() }

  lemma ActJammed(t: Transmitter, a: Action)
    requires Jammed(t) && Doable(t, a) && !a.Shut?
    ensures Jammed(Act(t, a))
  {
    assert t.writes == [] && t.staleWrites == [];
  }

  lemma OnlyClosesShut(s: Session, e: Event)
    requires Enabled(s, e) && !e.Close?
    ensures forall a | a in Actions(s, e) :: !a.Shut?
  {
    hide Reacts;
    LooksOnly(Ascending(s.tx.w4rQ.Keys));
  }

  lemma JammedStep(s: Session, e: Event)
    requires Enabled(s, e) && Jammed(s.tx) && !e.Close?
    ensures Jammed(Step(s, e).tx)
  {
    hide Step, Act, Doable, Actions, Jammed;
    TransmissionRefines(s, e);
    OnlyClosesShut(s, e);
    forall u, a: Action | Jammed(u) && Doable(u, a) && !a.Shut? ensures Jammed(Act(u, a)) {
      ActJammed(u, a);
    }
    KeptByActions(Jammed, (a: Action) => !a.Shut?, s.tx, Actions(s, e));
  }

  // What hopelessness asks of control.
  predicate Idle(c: Control) { c.connects == 0 && c.Reads() == 0 && (c.closes > 0 ==> !c.reconnect) }

  lemma IdleStep(c: Control, e: Event)
    requires Possible(c, e) && Idle(c) && !e.WriteError?
    ensures Idle(ControlStep(c, e)) && ControlStep(c, e).issued == c.issued
    ensures !e.Close? ==> ControlStep(c, e).state == c.state
  {
  }

  lemma CloseLeavesNothing(s: Session)
    requires Enabled(s, Close) && s.tx.UnderWay() == [] && !s.ctl.reconnect
    ensures var u := Step(s, Close);
            && u.tx.UnderWay() == [] && u.ctl.state == CLOSED && u.link.None? && u.age.None?
  {
  }

  lemma QuietStep(s: Session, e: Event)
    requires Enabled(s, e) && Hopeless(s) && s.tx.txQ.Empty() && !e.Close?
    ensures var u := Step(s, e);
            && u.tx.UnderWay() == [] && u.tx.txQ.Empty() && u.link.None? && (u.age.None? || u.tx.w4rQ == map[])
  {
  }

  lemma HopelessStep(s: Session, e: Event)
    requires Enabled(s, e) && Hopeless(s)
    ensures Hopeless(Step(s, e)) && Step(s, e).ctl.issued == s.ctl.issued
  {
    hide Step, ControlStep;
    assert !e.WriteError? by { NoneCanFail(s, e); }
    ControlRefines(s, e);
    IdleStep(s.ctl, e);
    if e.Close? {
      CloseLeavesNothing(s);
    } else if s.tx.txQ.Empty() {
      QuietStep(s, e);
    } else {
      JammedStep(s, e);
    }
  }

  lemma NoneCanFail(s: Session, e: Event)
    requires Enabled(s, e) && s.tx.UnderWay() == []
    ensures !e.WriteError?
  {
  }

  lemma {:induction false} HopelessForGood(s: Session, es: seq<Event>)
    requires Legal(s, es) && Hopeless(s)
    ensures Hopeless(After(s, es)) && After(s, es).ctl.issued == s.ctl.issued
  {
    hide Step, Hopeless;
    if es != [] {
      HopelessForGood(s, es[..|es| - 1]);
      HopelessStep(After(s, es[..|es| - 1]), es[|es| - 1]);
    }
  }

  // Some run from here issues a connect.
  ghost predicate CanConnect(s: Session) { exists es :: Legal(s, es) && After(s, es).ctl.issued > s.ctl.issued }

  lemma RunConnects(s: Session, es: seq<Event>)
    requires Legal(s, es) && After(s, es).ctl.issued > s.ctl.issued
    ensures CanConnect(s)
  {
  }

  // What can connect after a run can connect.
  lemma ConnectsLater(s: Session, es: seq<Event>)
    requires Legal(s, es) && After(s, es).ctl.issued >= s.ctl.issued && CanConnect(After(s, es))
    ensures CanConnect(s)
  {
    hide Step, After, Legal;
    var fs :| Legal(After(s, es), fs) && After(After(s, es), fs).ctl.issued > After(s, es).ctl.issued;
    LegalAppend(s, es, fs);
    RunConnects(s, es + fs);
  }

  lemma OneStepConnects(s: Session, e: Event)
    requires Enabled(s, e) && Step(s, e).ctl.issued >= s.ctl.issued && CanConnect(Step(s, e))
    ensures CanConnect(s)
  {
    hide Step;
    LegalSnoc(s, [], e);
    assert [] + [e] == [e];
    ConnectsLater(s, [e]);
  }

  lemma PendingConnects(s: Session)
    requires !s.ctl.stop && s.ctl.connects > 0
    ensures CanConnect(s)
  {
    hide Step, ControlStep;
    ControlRefines(s, Connected(false));
    RetryIssues(s.ctl);
    LegalSnoc(s, [], Connected(false));
    RunConnects(s, [] + [Connected(false)]);
  }

  lemma RetryIssues(c: Control)
    requires !c.stop && c.connects > 0
    ensures ControlStep(c, Connected(false)).issued == c.issued + 1
  {
  }

  lemma CloseConnects(s: Session)
    requires !s.ctl.stop && s.ctl.closes > 0 && s.ctl.reconnect
    ensures CanConnect(s)
  {
    hide Step;
    ControlRefines(s, Close);
    LegalSnoc(s, [], Close);
    RunConnects(s, [] + [Close]);
  }

  lemma LossConnects(s: Session, e: Event)
    requires Enabled(s, e) && !s.ctl.stop && (e.WriteError? || (e.ReadError? && e.eof))
    ensures CanConnect(s)
  {
    hide Step;
    ControlRefines(s, e);
    CloseConnects(Step(s, e));
    OneStepConnects(s, e);
  }

  lemma ReadConnects(s: Session)
    requires !s.ctl.stop && s.ctl.Reads() > 0
    ensures CanConnect(s)
  {
    var f := if s.ctl.stale > 0 then StaleRead else if s.ctl.bodies > 0 then BodyRead else HeaderRead;
    hide Step;
    LossConnects(s, ReadError(f, true));
  }

  lemma WriteConnects(s: Session)
    requires !s.ctl.stop && s.tx.UnderWay() != []
    ensures CanConnect(s)
  {
    hide Step;
    LossConnects(s, WriteError(s.tx.staleWrites != [], 0));
  }

  // A PDU that a user may send in a bound state.
  function SomeSendable(state: SessionState): Pdu
    requires state.Bound()
    ensures Sendable(state, SomeSendable(state).id)
  {
    Pdu(if state == BOUND_RX then DATA_SM_RESP else SUBMIT_SM, ESME_ROK, 0, [])
  }

  lemma BoundConnects(s: Session)
    requires !s.ctl.stop && s.tx.txQ.Empty() && s.ctl.state.Bound()
    ensures CanConnect(s)
  {
    hide Step, Sendable;
    var e := Send(SomeSendable(s.ctl.state));
    SendGoesUnderWay(s, e.pdu);
    WriteConnects(Step(s, e));
    OneStepConnects(s, e);
  }

  lemma SendGoesUnderWay(s: Session, p: Pdu)
    requires s.tx.txQ.Empty() && Sendable(s.ctl.state, p.id)
    ensures Step(s, Send(p)).ctl == s.ctl && Step(s, Send(p)).tx.UnderWay() != []
  {
    hide Transmitter.DoWrite;
    WrittenUnderWay(s.tx, p, MESSAGE);
  }

  lemma WrittenUnderWay(t: Transmitter, p: Pdu, level: Level)
    requires t.txQ.Empty() || t.UnderWay() != []
    ensures t.DoWrite(p, level).UnderWay() != []
  {
  }

  lemma LinkTestConnects(s: Session)
    requires !s.ctl.stop && s.tx.txQ.Empty() && s.link.Some?
    ensures CanConnect(s)
  {
    hide Step;
    var u := s.(tx := s.tx.Wait(s.link.value));
    TimePasses(s, s.link.value);
    TestGoesUnderWay(u);
    WriteConnects(Step(u, LinkTimer(false)));
    OneStepConnects(u, LinkTimer(false));
    OneStepConnects(s, Tick(s.link.value));
  }

  lemma TestGoesUnderWay(s: Session)
    requires s.tx.txQ.Empty() && s.link.Some? && s.link.value <= s.tx.now
    ensures Enabled(s, LinkTimer(false))
    ensures var u := Step(s, LinkTimer(false)); u.ctl == s.ctl && u.tx.UnderWay() != []
  {
    hide Transmitter.DoWrite;
    WrittenUnderWay(s.tx.DrawNumber(), LINK_TEST.(num := s.tx.nextNum), SESSION);
  }

  lemma {:induction false} SweepKeepsUnderWay(t: Transmitter, keys: seq<nat>)
    requires t.UnderWay() != []
    ensures t.Sweep(keys).UnderWay() != []
    decreases |keys|
  {
    hide Transmitter.DoWrite;
    if keys != [] {
      if t.Expired(keys[0]) {
        WrittenUnderWay(t, t.w4rQ[keys[0]].pdu, MESSAGE);
      }
      SweepKeepsUnderWay(t.Visit(keys[0]), keys[1..]);
    }
  }

  lemma SweepGoesUnderWay(s: Session)
    requires s.tx.txQ.Empty() && s.age.Some? && s.age.value <= s.tx.now && s.tx.w4rQ != map[]
    requires s.tx.Expired(Least(s.tx.w4rQ.Keys))
    ensures Enabled(s, AgeTimer(false))
    ensures var u := Step(s, AgeTimer(false)); u.ctl == s.ctl && u.tx.UnderWay() != []
  {
    hide Transmitter.DoWrite;
    var ks := s.tx.w4rQ.Keys;
    var k := Least(ks);
    WrittenUnderWay(s.tx, s.tx.w4rQ[k].pdu, MESSAGE);
    SweepKeepsUnderWay(s.tx.Visit(k), Ascending(ks - {k}));
    assert Ascending(ks)[0] == k && Ascending(ks)[1..] == Ascending(ks - {k});
    assert s.tx.Sweep(Ascending(ks)) == s.tx.Visit(k).Sweep(Ascending(ks - {k}));
  }

  lemma SweepConnects(s: Session)
    requires !s.ctl.stop && s.tx.txQ.Empty() && s.age.Some? && s.tx.w4rQ != map[]
    ensures CanConnect(s)
  {
    hide Step;
    assert s.tx.w4rQ.Keys != {};
    var k := Least(s.tx.w4rQ.Keys);
    var d := s.age.value + (s.tx.w4rQ[k].stamp + MAX_AGE) * SECOND;
    var u := s.(tx := s.tx.Wait(d));
    TimePasses(s, d);
    LongEnough(s.tx.now + s.age.value, s.tx.w4rQ[k].stamp + MAX_AGE);
    SweepGoesUnderWay(u);
    WriteConnects(Step(u, AgeTimer(false)));
    OneStepConnects(u, AgeTimer(false));
    OneStepConnects(s, Tick(d));
  }

  lemma LongEnough(a: nat, seconds: nat)
    ensures Seconds(a + seconds * SECOND) >= seconds
  {
  }

  /** An unstopped engine can still connect exactly if it is not hopeless. */
  lemma {:induction false} CanConnectIff(s: Session)
    requires !s.ctl.stop && s.ctl.state != OUTBOUND
    ensures CanConnect(s) <==> !Hopeless(s)
  {
    hide Step;
    if Hopeless(s) {
      forall es | Legal(s, es) ensures After(s, es).ctl.issued == s.ctl.issued {
        HopelessForGood(s, es);
      }
    } else if s.ctl.connects > 0 {
      PendingConnects(s);
    } else if s.ctl.Reads() > 0 {
      ReadConnects(s);
    } else if s.ctl.closes > 0 && s.ctl.reconnect {
      CloseConnects(s);
    } else if s.tx.UnderWay() != [] {
      WriteConnects(s);
    } else if s.ctl.state.Bound() {
      BoundConnects(s);
    } else if s.link.Some? {
      LinkTestConnects(s);
    } else {
      SweepConnects(s);
    }
  }

  // ---------------------------------------------------------------- how hope is lost

  // An unstopped session rests with one read outstanding, and no answer to its link test has come in time.
  predicate AboutToTimeOut(s: Session) {
    && !s.ctl.stop && s.ctl.connects == 0 && s.ctl.closes == 0 && s.ctl.Reads() == 1 && s.ctl.headers == 1
    && s.tx.txQ.Empty() && s.tx.UnderWay() == [] && s.resp.Some? && s.resp.value <= s.tx.now
  }

  // The message centre hangs up, the link test times out, and both closes run.
  const LAST_EVENTS: seq<Event> := [ReadError(HeaderRead, true), RespTimer(false)] + [Close, Close]

  /** An unstopped session dies for good if the message centre hangs up first and its link test times out before the
      posted close has run: it never connects again, though it was never stopped. */
  lemma HangUpThenTimeoutDies(s: Session)
    requires AboutToTimeOut(s)
    ensures Legal(s, LAST_EVENTS) && var u := After(s, LAST_EVENTS); !u.ctl.stop && Hopeless(u) && !CanConnect(u)
  {
    hide Step;
    HangsUpAndTimesOut(s);
    var s1 := Step(s, ReadError(HeaderRead, true));
    var s2 := Step(s1, RespTimer(false));
    ClosesTwice(s2);
    LegalPair(s, ReadError(HeaderRead, true), RespTimer(false));
    LegalPair(s2, Close, Close);
    LegalAppend(s, [ReadError(HeaderRead, true), RespTimer(false)], [Close, Close]);
    CanConnectIff(After(s, LAST_EVENTS));
  }

  lemma HangsUpAndTimesOut(s: Session)
    requires AboutToTimeOut(s)
    ensures Enabled(s, ReadError(HeaderRead, true)) && Enabled(Step(s, ReadError(HeaderRead, true)), RespTimer(false))
    ensures var u := Step(Step(s, ReadError(HeaderRead, true)), RespTimer(false));
            && u.tx == s.tx && u.ctl.connects == 0 && u.ctl.Reads() == 0 && u.ctl.closes == 2 && !u.ctl.reconnect && !u.ctl.stop
  {
  }

  lemma ClosesTwice(s: Session)
    requires s.ctl.connects == 0 && s.ctl.Reads() == 0 && s.ctl.closes == 2 && !s.ctl.reconnect && !s.ctl.stop
    requires s.tx.txQ.Empty() && s.tx.UnderWay() == []
    ensures Enabled(s, Close) && Enabled(Step(s, Close), Close)
    ensures var u := Step(Step(s, Close), Close); !u.ctl.stop && u.ctl.state == CLOSED && Hopeless(u)
  {
  }

  // The session is bound, rests, and tests the link when that is due.
  function SilentRun(s: Session): seq<Event>
    requires s.link.Some?
  {
    [Tick(s.link.value), LinkTimer(false)] + [WriteOk(0), Tick(s.cfg.linkTimeout * SECOND)]
  }

  /** Every configuration has a run to such a session: it is bound, and then hears nothing more. */
  lemma SilenceComesToThat(cfg: Config, t: nat)
    ensures var init := Init(cfg, [], t);
            && Legal(init, BindRun(cfg)) && var s := After(init, BindRun(cfg));
            && Ready(s) && Legal(s, SilentRun(s)) && AboutToTimeOut(After(s, SilentRun(s)))
  {
    hide Step;
    GetsReady(cfg, t);
    SilenceFrom(After(Init(cfg, [], t), BindRun(cfg)));
  }

  lemma SilenceFrom(s: Session)
    requires Ready(s)
    ensures Legal(s, SilentRun(s)) && AboutToTimeOut(After(s, SilentRun(s)))
  {
    hide Step;
    TimePasses(s, s.link.value);
    var s1 := Step(s, Tick(s.link.value));
    Tests(s1);
    var s2 := Step(s1, LinkTimer(false));
    LegalPair(s, Tick(s.link.value), LinkTimer(false));
    TestCompletes(s2);
    var s3 := Step(s2, WriteOk(0));
    TimePasses(s3, s.cfg.linkTimeout * SECOND);
    LegalPair(s2, WriteOk(0), Tick(s.cfg.linkTimeout * SECOND));
    LegalAppend(s, [Tick(s.link.value), LinkTimer(false)], [WriteOk(0), Tick(s.cfg.linkTimeout * SECOND)]);
  }

  lemma Tests(s: Session)
    requires s.link.Some? && s.link.value <= s.tx.now && s.tx.txQ.Empty() && s.tx.open && s.tx.UnderWay() == []
    ensures Enabled(s, LinkTimer(false)) && var u := Step(s, LinkTimer(false));
            && u.ctl == s.ctl && u.cfg == s.cfg && u.resp == Some(u.tx.now + s.cfg.linkTimeout * SECOND)
            && u.tx.txQ.Empty() && |u.tx.writes| == 1 && u.tx.staleWrites == []
  {
  }

  lemma TestCompletes(s: Session)
    requires s.tx.txQ.Empty() && |s.tx.writes| == 1 && s.tx.staleWrites == []
    ensures Enabled(s, WriteOk(0)) && var u := Step(s, WriteOk(0));
            u.ctl == s.ctl && u.resp == s.resp && u.tx.txQ.Empty() && u.tx.UnderWay() == [] && u.tx.now == s.tx.now
  {
  }
}

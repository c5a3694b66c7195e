// Two simple machines that the engine refines, one step for one event: a control automaton that knows nothing of
// what is sent, and a list of actions for the transmitter that depends on nothing but control.
module Refinement {
  import opened Smpp
  import opened TransmitQueue
  import opened Transmitter
  import opened Session

  // ---------------------------------------------------------------- reactions

  // What a PDU makes the engine do, apart from putting off the next link test.
  datatype Reaction = Ignore | EnterBound(state: SessionState) | Rebind | Respond | Deliver | LinkAlive
                    | ObeyUnbind | UnbindDone | Throw

  function Reacts(state: SessionState, p: Pdu, decodes: bool): Reaction {
    if !decodes && Decoded(state, p) then Throw
    else if state == CLOSED then Ignore
    else if p.id == ENQUIRE_LINK then Respond
    else if p.id == ENQUIRE_LINK_RESP then LinkAlive
    else if state.Bound() && p.id == UNBIND then ObeyUnbind
    else if state.Bound() && p.id == UNBIND_RESP then UnbindDone
    else if (state == BOUND_RX || state == BOUND_TRX) && p.id == DELIVER_SM then Deliver
    else if state == OPEN && p.id == OUTBIND then Rebind
    else if (state == OPEN || state == OUTBOUND) && p.id == BIND_RECEIVER_RESP && p.status == ESME_ROK then EnterBound(BOUND_RX)
    else if (state == OPEN || state == OUTBOUND) && p.id == BIND_TRANSMITTER_RESP && p.status == ESME_ROK then EnterBound(BOUND_TX)
    else if (state == OPEN || state == OUTBOUND) && p.id == BIND_TRANSCEIVER_RESP && p.status == ESME_ROK then EnterBound(BOUND_TRX)
    else Ignore
  }

  function Apply(s: Session, p: Pdu, r: Reaction): Session {
    match r
    case Ignore => s
    case EnterBound(state) => s.(ctl := s.ctl.(state := state))
    case Rebind => DoBindRequest(s)
    case Respond => DoWrite(s, ResponseTo(p), RESPONSE)
    case Deliver => ProcDeliverSm(s, p)
    case LinkAlive => s.(resp := None)
    case ObeyUnbind => ProcUnbind(s, p)
    case UnbindDone => ProcUnbindResp(s)
    case Throw => CloseSession(s, true)
  }

  /** The dispatch over states and command ids amounts to the table of reactions. */
  lemma ProcessReacts(s: Session, p: Pdu, decodes: bool)
    ensures Process4State(s, p, decodes) == Apply(RescheduleEnquireLink(s), p, Reacts(s.ctl.state, p, decodes))
  {
    hide DoWrite, CloseSession, DoBindRequest, ProcDeliverSm, ProcUnbind, ProcUnbindResp;
  }

  // The state in which a PDU that was read is reacted to.
  function ReadyToReact(s: Session, p: Pdu, decodes: bool): Session
    requires s.ctl.bodies > 0
  {
    RescheduleEnquireLink(s.(ctl := s.ctl.(bodies := s.ctl.bodies - 1), tx := s.tx.W4rqPop(p),
                             received := s.received + [Received(p, s.ctl.state, decodes)]))
  }

  lemma ReadingReacts(s: Session, p: Pdu, decodes: bool)
    requires s.ctl.bodies > 0
    ensures var s1 := Apply(ReadyToReact(s, p, decodes), p, Reacts(s.ctl.state, p, decodes));
            HandleBodyOk(s, p, decodes) == s1.(ctl := s1.ctl.(headers := s1.ctl.headers + 1))
  {
    hide Process4State, Apply, Reacts;
    ProcessReacts(s.(ctl := s.ctl.(bodies := s.ctl.bodies - 1), tx := s.tx.W4rqPop(p),
                     received := s.received + [Received(p, s.ctl.state, decodes)]), p, decodes);
  }

  // ---------------------------------------------------------------- control

  // How a PDU steers the engine.
  function Steer(c: Control, r: Reaction): Control {
    match r
    case EnterBound(state) => c.(state := state)
    case ObeyUnbind => c.(state := UNBOUND, stop := false, reconnect := true).PostClose()
    case UnbindDone => c.(state := OPEN, reconnect := false).PostClose()
    case Throw => c.(reconnect := true).PostClose()
    case _ => c
  }

  predicate Possible(c: Control, e: Event) {
    match e
    case Connected(_) => c.connects > 0
    case HeaderOk => c.headers > 0
    case BodyOk(_, _) => c.bodies > 0
    case ReadError(f, _) => Outstanding(c, f)
    case Close => c.closes > 0
    case _ => true
  }

  function ControlStep(c: Control, e: Event): Control
    requires Possible(c, e)
  {
    match e
    case Connected(ok) =>
      var c1 := c.(connects := c.connects - 1);
      if ok then c1.(state := OPEN, headers := c.headers + 1) else if c.stop then c1 else c1.Connect()
    case HeaderOk => c.(headers := c.headers - 1, bodies := c.bodies + 1)
    case BodyOk(p, decodes) =>
      var c1 := Steer(c.(bodies := c.bodies - 1), Reacts(c.state, p, decodes));
      c1.(headers := c1.headers + 1)
    case ReadError(f, eof) =>
      var c1 := ReadFailed(c, f);
      if c.stop then c1 else c1.(state := if eof then CLOSED else c.state, reconnect := true).PostClose()
    case WriteError(_, _) => if c.stop then c else c.(state := CLOSED, reconnect := true).PostClose()
    case Close => if !c.stop && c.reconnect then c.Closed().(reconnect := false).Connect() else c.Closed()
    case RespTimer(aborted) => if aborted || c.stop then c else c.(reconnect := false).PostClose()
    case StopCall => c.(stop := true, reconnect := false).PostClose()
    case _ => c
  }

  lemma ReactionSteers(s: Session, p: Pdu, r: Reaction)
    ensures Apply(s, p, r).ctl == Steer(s.ctl, r)
  {
  }

  /** Every step of the engine is the control automaton's step for the same event. */
  lemma {:induction false} ControlRefines(s: Session, e: Event)
    requires Enabled(s, e)
    ensures Possible(s.ctl, e)
    ensures Step(s, e).ctl == ControlStep(s.ctl, e)
  {
    if e.BodyOk? {
      hide Process4State, Apply, Reacts, Steer;
      ReadingReacts(s, e.pdu, e.decodes);
      ReactionSteers(ReadyToReact(s, e.pdu, e.decodes), e.pdu, Reacts(s.ctl.state, e.pdu, e.decodes));
    } else {
      hide HandleBodyOk;
    }
  }

  // ---------------------------------------------------------------- transmission

  // Asking for a close writes an unbind request if the session is bound.
  function UnbindActions(state: SessionState): seq<Action> {
    if state.Bound() || state == OUTBOUND then [Accept(UNBIND_REQUEST, SESSION)] else []
  }

  function ReactionActions(cfg: Config, state: SessionState, p: Pdu, r: Reaction): seq<Action> {
    match r
    case Rebind => [Issue(BindRequest(cfg), SESSION)]
    case Respond => [Accept(ResponseTo(p), RESPONSE)]
    case Deliver => [Accept(ResponseTo(p), RESPONSE)]
    case ObeyUnbind => [Accept(ResponseTo(p), RESPONSE)]
    case Throw => UnbindActions(state)
    case _ => []
  }

  function Looks(keys: seq<nat>): seq<Action> {
    if keys == [] then [] else Looks(keys[..|keys| - 1]) + [Look(keys[|keys| - 1])]
  }

  // What the engine asks of its transmitter for an event.
  function Actions(s: Session, e: Event): seq<Action> {
    match e
    case Connected(ok) =>
      if ok then [Open, Issue(BindRequest(s.cfg), SESSION)] else if s.ctl.stop then [] else [Pause(5 * SECOND)]
    case BodyOk(p, decodes) => [Read(p)] + ReactionActions(s.cfg, s.ctl.state, p, Reacts(s.ctl.state, p, decodes))
    case ReadError(_, eof) => if s.ctl.stop || eof then [] else UnbindActions(s.ctl.state)
    case WriteOk(i) => [Complete(i, s.ctl.state.Bound())]
    case WriteError(stale, j) => [Fail(stale, j)]
    case Close => if !s.ctl.stop && s.ctl.reconnect then [Shut, Pause(SECOND)] else [Shut]
    case LinkTimer(aborted) => if aborted then [] else [Issue(LINK_TEST, SESSION)]
    case RespTimer(aborted) => if aborted || s.ctl.stop then [] else UnbindActions(s.ctl.state)
    case AgeTimer(aborted) => if aborted then [] else Looks(Ascending(s.tx.w4rQ.Keys))
    case Send(p) => if Sendable(s.ctl.state, p.id) then [Accept(p, MESSAGE)] else []
    case StopCall => UnbindActions(s.ctl.state)
    case Tick(d) => [Pause(d)]
    case HeaderOk => []
  }

  lemma One(t: Transmitter, a: Action)
    requires Doable(t, a)
    ensures AllDoable(t, [a]) && Perform(t, [a]) == Act(t, a)
  {
    PerformSnoc(t, [], a);
    assert [] + [a] == [a];
  }

  lemma Two(t: Transmitter, a: Action, b: Action)
    requires Doable(t, a) && Doable(Act(t, a), b)
    ensures AllDoable(t, [a, b]) && Perform(t, [a, b]) == Act(Act(t, a), b)
  {
    One(t, a);
    PerformSnoc(t, [a], b);
    assert [a] + [b] == [a, b];
  }

  lemma {:induction false} SweepLooks(t: Transmitter, keys: seq<nat>)
    ensures AllDoable(t, Looks(keys)) && Perform(t, Looks(keys)) == t.Sweep(keys)
    decreases |keys|
  {
    hide Act, Doable, Transmitter.Visit;
    if keys != [] {
      var k := keys[|keys| - 1];
      SweepLooks(t, keys[..|keys| - 1]);
      LookVisits(t.Sweep(keys[..|keys| - 1]), k);
      PerformSnoc(t, Looks(keys[..|keys| - 1]), Look(k));
      SweepSnoc(t, keys[..|keys| - 1], k);
      assert keys[..|keys| - 1] + [k] == keys;
    }
  }

  lemma LookVisits(t: Transmitter, k: nat)
    ensures Doable(t, Look(k)) && Act(t, Look(k)) == t.Visit(k)
  {
  }

  lemma {:induction false} SweepSnoc(t: Transmitter, keys: seq<nat>, k: nat)
    ensures t.Sweep(keys + [k]) == t.Sweep(keys).Visit(k)
    decreases |keys|
  {
    hide Transmitter.Visit;
    if keys == [] {
      assert t.Sweep([k]) == t.Visit(k).Sweep([]);
    } else {
      SweepSnoc(t.Visit(keys[0]), keys[1..], k);
      assert (keys + [k])[1..] == keys[1..] + [k];
    }
  }

  lemma ReactionActs(s: Session, p: Pdu, r: Reaction)
    ensures AllDoable(s.tx, ReactionActions(s.cfg, s.ctl.state, p, r))
    ensures Apply(s, p, r).tx == Perform(s.tx, ReactionActions(s.cfg, s.ctl.state, p, r))
  {
    One(s.tx, Issue(BindRequest(s.cfg), SESSION));
    One(s.tx, Accept(ResponseTo(p), RESPONSE));
    One(s.tx, Accept(UNBIND_REQUEST, SESSION));
  }

  lemma ReadingActs(s: Session, p: Pdu, decodes: bool)
    requires s.ctl.bodies > 0
    ensures AllDoable(s.tx, Actions(s, BodyOk(p, decodes)))
    ensures HandleBodyOk(s, p, decodes).tx == Perform(s.tx, Actions(s, BodyOk(p, decodes)))
  {
    hide HandleBodyOk, Apply, Reacts, Perform, AllDoable, ReactionActions;
    var r := Reacts(s.ctl.state, p, decodes);
    var s1 := ReadyToReact(s, p, decodes);
    ReadingReacts(s, p, decodes);
    ReactionActs(s1, p, r);
    One(s.tx, Read(p));
    PerformAll(s.tx, [Read(p)], ReactionActions(s.cfg, s.ctl.state, p, r));
  }

  lemma ConnectionActs(s: Session, ok: bool)
    requires s.ctl.connects > 0
    ensures AllDoable(s.tx, Actions(s, Connected(ok)))
    ensures HandleConnect(s, ok).tx == Perform(s.tx, Actions(s, Connected(ok))) && HandleConnect(s, ok).cfg == s.cfg
  {
    hide Transmitter.DoWriteNumbered;
    Two(s.tx, Open, Issue(BindRequest(s.cfg), SESSION));
    One(s.tx, Pause(5 * SECOND));
  }

  lemma CloseActs(s: Session)
    requires s.ctl.closes > 0
    ensures AllDoable(s.tx, Actions(s, Close))
    ensures CloseConnection(s).tx == Perform(s.tx, Actions(s, Close)) && CloseConnection(s).cfg == s.cfg
  {
    One(s.tx, Shut);
    Two(s.tx, Shut, Pause(SECOND));
  }

  lemma ClosingActs(s: Session, e: Event)
    requires Enabled(s, e) && (e.ReadError? || e.RespTimer? || e.StopCall?)
    ensures AllDoable(s.tx, Actions(s, e))
    ensures Step(s, e).tx == Perform(s.tx, Actions(s, e)) && Step(s, e).cfg == s.cfg
  {
    hide Transmitter.DoWrite;
    One(s.tx, Accept(UNBIND_REQUEST, SESSION));
  }

  lemma OtherActs(s: Session, e: Event)
    requires Enabled(s, e) && !e.BodyOk? && !e.Connected? && !e.Close? && !e.ReadError? && !e.RespTimer? && !e.StopCall?
    ensures AllDoable(s.tx, Actions(s, e))
    ensures Step(s, e).tx == Perform(s.tx, Actions(s, e)) && Step(s, e).cfg == s.cfg
  {
    hide Transmitter.DoWrite, Transmitter.DoWriteNumbered, Transmitter.WriteOk, Transmitter.WriteError, Transmitter.Sweep;
    match e
    case WriteOk(i) => One(s.tx, Complete(i, s.ctl.state.Bound()));
    case WriteError(stale, j) => One(s.tx, Fail(stale, j));
    case LinkTimer(_) => One(s.tx, Issue(LINK_TEST, SESSION));
    case AgeTimer(_) => SweepLooks(s.tx, Ascending(s.tx.w4rQ.Keys));
    case Send(p) => One(s.tx, Accept(p, MESSAGE));
    case Tick(d) => One(s.tx, Pause(d));
    case HeaderOk =>
  }

  /** Every step of the engine does to its transmitter what the actions for the event do. */
  lemma TransmissionRefines(s: Session, e: Event)
    requires Enabled(s, e)
    ensures AllDoable(s.tx, Actions(s, e))
    ensures Step(s, e).tx == Perform(s.tx, Actions(s, e)) && Step(s, e).cfg == s.cfg
  {
    hide HandleBodyOk, HandleConnect, CloseConnection, Actions, Perform, AllDoable;
    if e.BodyOk? {
      ReadingActs(s, e.pdu, e.decodes);
      ReadingKeepsConfig(s, e.pdu, e.decodes);
    } else if e.Connected? {
      ConnectionActs(s, e.ok);
    } else if e.Close? {
      CloseActs(s);
    } else if e.ReadError? || e.RespTimer? || e.StopCall? {
      ClosingActs(s, e);
    } else {
      OtherActs(s, e);
    }
  }

  lemma ReadingKeepsConfig(s: Session, p: Pdu, decodes: bool)
    requires s.ctl.bodies > 0
    ensures HandleBodyOk(s, p, decodes).cfg == s.cfg
  {
    hide HandleBodyOk, Reacts;
    ReadingReacts(s, p, decodes);
  }

  // ---------------------------------------------------------------- invariants of the transmitter

  lemma {:induction false} KeptByActions(inv: Transmitter -> bool, ok: Action -> bool, t: Transmitter, acts: seq<Action>)
    requires AllDoable(t, acts) && inv(t) && forall a | a in acts :: ok(a)
    requires forall u, a | inv(u) && Doable(u, a) && ok(a) :: inv(Act(u, a))
    ensures inv(Perform(t, acts))
  {
    hide Act, Doable;
    if acts != [] {
      KeptByActions(inv, ok, t, acts[..|acts| - 1]);
    }
  }

  // Whether everything a run asks of its transmitter is of some kind.
  ghost predicate Asks(ok: Action -> bool, s: Session, es: seq<Event>)
    requires Legal(s, es)
  {
    forall k, a | 0 <= k < |es| && a in Actions(At(s, es, k), es[k]) :: ok(a)
  }

  /** What every action of a kind keeps, a run that asks for no other kind keeps. */
  lemma {:induction false} KeptByRun(inv: Transmitter -> bool, ok: Action -> bool, s: Session, es: seq<Event>, k: nat)
    requires Legal(s, es) && inv(s.tx) && Asks(ok, s, es) && k <= |es|
    requires forall u, a | inv(u) && Doable(u, a) && ok(a) :: inv(Act(u, a))
    ensures inv(At(s, es, k).tx)
  {
    hide Act, Doable, Step, Actions;
    AtEnds(s, es);
    if k > 0 {
      KeptByRun(inv, ok, s, es, k - 1);
      AtStep(s, es, k - 1);
      var s1 := At(s, es, k - 1);
      TransmissionRefines(s1, es[k - 1]);
      KeptByActions(inv, ok, s1.tx, Actions(s1, es[k - 1]));
    }
  }

  /** What every action keeps, every run keeps. */
  lemma KeptByEveryRun(inv: Transmitter -> bool, s: Session, es: seq<Event>)
    requires Legal(s, es) && inv(s.tx)
    requires forall u, a | inv(u) && Doable(u, a) :: inv(Act(u, a))
    ensures inv(After(s, es).tx)
  {
    hide Act, Doable, Step, Actions;
    AtEnds(s, es);
    KeptByRun(inv, _ => true, s, es, |es|);
  }

  lemma LooksOnly(keys: seq<nat>)
    ensures forall a | a in Looks(keys) :: a.Look?
  {
  }

  lemma OnlyWritesComplete(s: Session, e: Event)
    requires Enabled(s, e) && !e.WriteOk?
    ensures forall a | a in Actions(s, e) :: !a.Complete?
  {
    hide Reacts;
    LooksOnly(Ascending(s.tx.w4rQ.Keys));
  }

  lemma OnlyErrorsFail(s: Session, e: Event)
    requires Enabled(s, e) && !e.WriteError?
    ensures forall a | a in Actions(s, e) :: !a.Fail?
  {
    hide Reacts;
    LooksOnly(Ascending(s.tx.w4rQ.Keys));
  }

  // Only a write error makes the transmitter take a PDU back.
  lemma NoErrorsNoFailures(s: Session, es: seq<Event>)
    requires Legal(s, es) && forall e | e in es :: !e.WriteError?
    ensures forall k, a | 0 <= k < |es| && a in Actions(At(s, es, k), es[k]) :: !a.Fail?
    ensures Asks((a: Action) => !a.Fail?, s, es)
  {
    hide Actions, Step, After;
    forall k, a | 0 <= k < |es| && a in Actions(At(s, es, k), es[k]) ensures !a.Fail? {
      assert es[k] in es;
      AtStep(s, es, k);
      OnlyErrorsFail(At(s, es, k), es[k]);
    }
  }
}

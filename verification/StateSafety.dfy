// Which session states a run can be in, and how it gets there (section 2.3 of SMPP v5.0).
module StateSafety {
  import opened Smpp
  import opened Session
  import opened Refinement

  function BoundStateOf(t: BindType): SessionState {
    match t case TX => BOUND_TX case RX => BOUND_RX case TRX => BOUND_TRX
  }

  predicate IsBindResp(id: nat) { id == BIND_RECEIVER_RESP || id == BIND_TRANSMITTER_RESP || id == BIND_TRANSCEIVER_RESP }

  // The message centre answers a bind with the response to that kind of bind.
  predicate AnswersInKind(cfg: Config, e: Event) {
    e.BodyOk? && IsBindResp(e.pdu.id) ==> e.pdu.id == BindRequestId(cfg.bindType) + RESPONSE_BIT
  }

  predicate Safe(c: Control) {
    c.state != OUTBOUND && (c.state == UNBOUND ==> c.closes > 0)
  }

  /** OUTBOUND is never entered, and a run that is UNBOUND is about to close. */
  lemma {:induction false} NeverOutbound(cfg: Config, backlog: seq<Pdu>, t: nat, es: seq<Event>)
    requires Legal(Init(cfg, backlog, t), es)
    ensures Safe(After(Init(cfg, backlog, t), es).ctl)
  {
    hide Step, ControlStep;
    if es != [] {
      var s := After(Init(cfg, backlog, t), es[..|es| - 1]);
      NeverOutbound(cfg, backlog, t, es[..|es| - 1]);
      ControlRefines(s, es[|es| - 1]);
      SafeStep(s.ctl, es[|es| - 1]);
    }
  }

  lemma SafeStep(c: Control, e: Event)
    requires Possible(c, e) && Safe(c)
    ensures Safe(ControlStep(c, e))
  {
  }

  /** A bound state is entered from OPEN only, and only by a bind response without error, which names the state. */
  lemma {:induction false} BoundOnlyByBindResp(s: Session, e: Event)
    requires Enabled(s, e) && Safe(s.ctl)
    requires Step(s, e).ctl.state.Bound() && Step(s, e).ctl.state != s.ctl.state
    ensures s.ctl.state == OPEN && e.BodyOk? && IsBindResp(e.pdu.id) && e.pdu.status == ESME_ROK
    ensures forall b: BindType :: Step(s, e).ctl.state == BoundStateOf(b) <==> e.pdu.id == BindRequestId(b) + RESPONSE_BIT
  {
    hide Step;
    ControlRefines(s, e);
  }

  /** With a message centre that answers in kind, a session that is bound is bound as configured. */
  lemma {:induction false} BoundAsConfigured(cfg: Config, backlog: seq<Pdu>, t: nat, es: seq<Event>)
    requires Legal(Init(cfg, backlog, t), es)
    requires forall e | e in es :: AnswersInKind(cfg, e)
    ensures var c := After(Init(cfg, backlog, t), es).ctl; c.state.Bound() ==> c.state == BoundStateOf(cfg.bindType)
  {
    hide Step;
    if es != [] {
      var before, e := es[..|es| - 1], es[|es| - 1];
      var s := After(Init(cfg, backlog, t), before);
      BoundAsConfigured(cfg, backlog, t, before);
      NeverOutbound(cfg, backlog, t, before);
      if Step(s, e).ctl.state.Bound() && Step(s, e).ctl.state != s.ctl.state {
        BoundOnlyByBindResp(s, e);
        assert AnswersInKind(cfg, e);
        var st := Step(s, e).ctl.state;
        assert st == BoundStateOf(cfg.bindType) <==> e.pdu.id == BindRequestId(cfg.bindType) + RESPONSE_BIT;
      }
    }
  }
}

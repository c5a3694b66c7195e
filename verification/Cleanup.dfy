// What a closed connection leaves behind.
module Cleanup {
  import opened Smpp
  import opened TransmitQueue
  import opened Transmitter
  import opened Session
  import opened Refinement

  // Closed for good, or until a pending connect completes: no close is waiting to run.
  predicate Settled(c: Control) { c.state == CLOSED && c.closes == 0 }

  // On a closed socket nothing is under way that can still succeed.
  predicate Dead(s: Session) { !s.tx.open ==> s.ctl.headers == 0 && s.ctl.bodies == 0 && s.tx.writes == [] }

  predicate Swept(s: Session) {
    && !s.tx.open && s.link.None? && s.resp.None? && (s.age.None? || s.tx.w4rQ == map[])
    && (s.ctl.stop || (s.tx.txQ.session == [] && s.tx.txQ.response == []))
  }

  predicate Clean(s: Session) { Dead(s) && (Settled(s.ctl) ==> Swept(s)) }

  // Apart from opening and closing it, nothing the engine asks for concerns the socket.
  lemma ActSocket(t: Transmitter, a: Action)
    requires Doable(t, a) && !a.Open? && !a.Shut? && (!t.open ==> t.writes == [])
    ensures var u := Act(t, a); u.open == t.open && (!u.open ==> u.writes == [])
  {
  }

  lemma {:induction false} ActionsSocket(t: Transmitter, acts: seq<Action>)
    requires AllDoable(t, acts) && (!t.open ==> t.writes == [])
    requires forall a | a in acts :: !a.Open? && !a.Shut?
    ensures var u := Perform(t, acts); u.open == t.open && (!u.open ==> u.writes == [])
  {
    hide Act, Doable;
    if acts != [] {
      ActionsSocket(t, acts[..|acts| - 1]);
      ActSocket(Perform(t, acts[..|acts| - 1]), acts[|acts| - 1]);
    }
  }

  lemma SocketUntouched(s: Session, e: Event)
    requires Enabled(s, e) && !e.Close? && e != Connected(true)
    ensures forall a | a in Actions(s, e) :: !a.Open? && !a.Shut?
  {
    hide Reacts;
    LooksOnly(Ascending(s.tx.w4rQ.Keys));
  }

  lemma DeadStep(s: Session, e: Event)
    requires Enabled(s, e) && Dead(s)
    ensures Dead(Step(s, e))
  {
    if e.Close? {
    } else if e == Connected(true) {
      assert Step(s, e).tx.open by { HandOverFrame(s.tx.Opened().DrawNumber(), BindRequest(s.cfg).(num := s.tx.nextNum), SESSION); }
    } else {
      hide Step, Actions, Reacts;
      ControlRefines(s, e);
      TransmissionRefines(s, e);
      SocketUntouched(s, e);
      ActionsSocket(s.tx, Actions(s, e));
    }
  }

  predicate Quiet(c: Control, e: Event) {
    && !e.StopCall? && !e.HeaderOk? && !e.BodyOk? && e != Connected(true)
    && (e.ReadError? || e.WriteError? ==> c.stop)
  }

  // A session settles by a close only, and while it is settled little can happen.
  lemma SettlesByClose(c: Control, e: Event)
    requires Possible(c, e) && Settled(ControlStep(c, e))
    ensures e.Close? || Settled(c)
    ensures !e.Close? && c.headers == 0 && c.bodies == 0 ==> Quiet(c, e)
  {
  }

  lemma CleanStep(s: Session, e: Event)
    requires Enabled(s, e) && Clean(s)
    ensures Clean(Step(s, e))
  {
    DeadStep(s, e);
    ControlRefines(s, e);
    if Settled(Step(s, e).ctl) && !e.Close? {
      SettlesByClose(s.ctl, e);
      SettledStep(s, e);
    }
  }

  lemma SettledStep(s: Session, e: Event)
    requires Enabled(s, e) && Clean(s) && Settled(s.ctl) && !e.Close?
    requires Quiet(s.ctl, e)
    ensures Swept(Step(s, e))
  {
  }

  /** In a settled session that has not been stopped no session or response PDU is left and both link timers are
      off, however many aborted writes have put their PDU back after the close cleared the queue. */
  lemma {:induction false} NothingLeaks(cfg: Config, backlog: seq<Pdu>, t: nat, es: seq<Event>)
    requires Legal(Init(cfg, backlog, t), es)
    ensures Clean(After(Init(cfg, backlog, t), es))
  {
    hide Step;
    if es != [] {
      NothingLeaks(cfg, backlog, t, es[..|es| - 1]);
      CleanStep(After(Init(cfg, backlog, t), es[..|es| - 1]), es[|es| - 1]);
    }
  }
}

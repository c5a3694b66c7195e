// Whether the engine keeps trying: what an unstopped one keeps outstanding, and that a stopped one connects no more.
module Reconnection {
  import opened Smpp
  import opened Session
  import opened Transmitter
  import opened Refinement
  import opened Binding

  // A connect or a read is outstanding, or a close that connects again: the three things that the handlers of a
  // connection keep going. A write under way can do without them: module Recovery has the whole of it.
  predicate Alive(c: Control) {
    !c.stop ==> c.connects > 0 || c.Reads() > 0 || (c.closes > 0 && c.reconnect)
  }

  // The link test times out when no read and no connect is outstanding: do_enquire_link_failure asks for a
  // reconnect and close_session takes the request back at once.
  predicate FatalTimeout(c: Control, e: Event) {
    e == RespTimer(false) && !c.stop && c.connects == 0 && c.Reads() == 0
  }

  lemma AliveStep(c: Control, e: Event)
    requires Possible(c, e) && Alive(c)
    ensures Alive(ControlStep(c, e)) <==> !FatalTimeout(c, e)
  {
  }

  /** A run keeps one of the three outstanding, while not stopped, exactly when no link test times out with no connect
      and no read outstanding. */
  lemma {:induction false} NeverDeadIff(cfg: Config, backlog: seq<Pdu>, t: nat, es: seq<Event>)
    requires Legal(Init(cfg, backlog, t), es)
    ensures var init := Init(cfg, backlog, t);
            (forall k | 0 <= k <= |es| :: Alive(At(init, es, k).ctl)) <==>
            (forall k | 0 <= k < |es| :: !FatalTimeout(At(init, es, k).ctl, es[k]))
  {
    hide Step, ControlStep;
    var init := Init(cfg, backlog, t);
    if forall k | 0 <= k <= |es| :: Alive(At(init, es, k).ctl) {
      forall k | 0 <= k < |es| ensures !FatalTimeout(At(init, es, k).ctl, es[k]) {
        AtStep(init, es, k);
        ControlRefines(At(init, es, k), es[k]);
        AliveStep(At(init, es, k).ctl, es[k]);
        assert Alive(At(init, es, k + 1).ctl);
      }
    }
    if forall k | 0 <= k < |es| :: !FatalTimeout(At(init, es, k).ctl, es[k]) {
      forall k | 0 <= k <= |es| ensures Alive(At(init, es, k).ctl) {
        AliveUpTo(init, es, k);
      }
    }
  }

  lemma {:induction false} AliveUpTo(init: Session, es: seq<Event>, k: nat)
    requires Legal(init, es) && k <= |es| && Alive(init.ctl)
    requires forall j | 0 <= j < |es| :: !FatalTimeout(At(init, es, j).ctl, es[j])
    ensures Alive(At(init, es, k).ctl)
  {
    hide Step, ControlStep;
    AtEnds(init, es);
    if k > 0 {
      AliveUpTo(init, es, k - 1);
      AtStep(init, es, k - 1);
      ControlRefines(At(init, es, k - 1), es[k - 1]);
      AliveStep(At(init, es, k - 1).ctl, es[k - 1]);
    }
  }

  // ---------------------------------------------------------------- stop

  // An unbind of the message centre that the engine acts on.
  predicate ObeysUnbind(c: Control, e: Event) {
    e.BodyOk? && e.pdu.id == UNBIND && e.decodes && c.state.Bound()
  }

  lemma StopStep(c: Control, e: Event)
    requires Possible(c, e) && c.stop
    ensures ControlStep(c, e).stop <==> !ObeysUnbind(c, e)
    ensures ControlStep(c, e).issued == c.issued
  {
  }

  /** A stopped engine stays stopped exactly as long as it obeys no unbind, and then it connects no more. */
  lemma {:induction false} StopIsFinalIff(s: Session, es: seq<Event>)
    requires s.ctl.stop && Legal(s, es)
    ensures (forall k | 0 <= k <= |es| :: At(s, es, k).ctl.stop) <==>
            (forall k | 0 <= k < |es| :: !ObeysUnbind(At(s, es, k).ctl, es[k]))
    ensures (forall k | 0 <= k < |es| :: !ObeysUnbind(At(s, es, k).ctl, es[k])) ==>
            After(s, es).ctl.issued == s.ctl.issued
  {
    hide Step, ControlStep;
    if forall k | 0 <= k <= |es| :: At(s, es, k).ctl.stop {
      forall k | 0 <= k < |es| ensures !ObeysUnbind(At(s, es, k).ctl, es[k]) {
        AtStep(s, es, k);
        ControlRefines(At(s, es, k), es[k]);
        StopStep(At(s, es, k).ctl, es[k]);
        assert At(s, es, k + 1).ctl.stop;
      }
    }
    if forall k | 0 <= k < |es| :: !ObeysUnbind(At(s, es, k).ctl, es[k]) {
      forall k | 0 <= k <= |es| ensures At(s, es, k).ctl.stop && At(s, es, k).ctl.issued == s.ctl.issued {
        StoppedUpTo(s, es, k);
      }
      AtEnds(s, es);
    }
  }

  lemma {:induction false} StoppedUpTo(s: Session, es: seq<Event>, k: nat)
    requires s.ctl.stop && Legal(s, es) && k <= |es|
    requires forall j | 0 <= j < |es| :: !ObeysUnbind(At(s, es, j).ctl, es[j])
    ensures At(s, es, k).ctl.stop && At(s, es, k).ctl.issued == s.ctl.issued
  {
    hide Step, ControlStep;
    AtEnds(s, es);
    if k > 0 {
      StoppedUpTo(s, es, k - 1);
      AtStep(s, es, k - 1);
      ControlRefines(At(s, es, k - 1), es[k - 1]);
      StopStep(At(s, es, k - 1).ctl, es[k - 1]);
    }
  }

  /** An unbind does undo a stop: the next close connects again. */
  lemma UnbindUndoesStop(s: Session, p: Pdu)
    requires s.ctl.stop && s.ctl.bodies > 0 && ObeysUnbind(s.ctl, BodyOk(p, true))
    ensures Legal(s, [BodyOk(p, true), Close])
    ensures var u := After(s, [BodyOk(p, true), Close]); u.ctl.issued == s.ctl.issued + 1 && !u.ctl.stop
  {
    LegalPair(s, BodyOk(p, true), Close);
  }

  /** And that can happen to any bound session: it is stopped, and hears an unbind before its close has run. */
  lemma StoppedSessionCanHearUnbind(s: Session, p: Pdu)
    requires Ready(s) && p.id == UNBIND
    ensures var es := [StopCall, HeaderOk] + [BodyOk(p, true), Close];
            && Legal(s, es) && Legal(s, es[..1]) && After(s, es[..1]).ctl.stop
            && !After(s, es).ctl.stop && After(s, es).ctl.issued == s.ctl.issued + 1
  {
    hide Step;
    StopsBound(s);
    var u := Step(Step(s, StopCall), HeaderOk);
    LegalPair(s, StopCall, HeaderOk);
    UnbindUndoesStop(u, p);
    LegalAppend(s, [StopCall, HeaderOk], [BodyOk(p, true), Close]);
    LegalSnoc(s, [], StopCall);
    assert ([StopCall, HeaderOk] + [BodyOk(p, true), Close])[..1] == [] + [StopCall];
  }

  lemma StopsBound(s: Session)
    requires s.ctl.state.Bound() && s.ctl.headers > 0
    ensures Step(s, StopCall).ctl.stop && Enabled(Step(s, StopCall), HeaderOk)
    ensures var u := Step(Step(s, StopCall), HeaderOk);
            u.ctl.stop && u.ctl.bodies > 0 && u.ctl.state == s.ctl.state && u.ctl.issued == s.ctl.issued
  {
    hide Transmitter.DoWrite;
  }
}

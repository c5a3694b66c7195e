// A queue that holds a message while no write is under way never moves again.
module Stalling {
  import opened Smpp
  import opened Transmitter
  import opened Session
  import opened Refinement
  import opened TransmitQueue
  import opened Binding
  import Failures

  // A message is queued and no write is under way, so no completion will ever start the next write.
  ghost predicate Stalled(wire: seq<Sent>, t: Transmitter) {
    t.txQ.message != [] && t.writes == [] && t.wire == wire
  }

  lemma StallsOn(wire: seq<Sent>, t: Transmitter, a: Action)
    requires Stalled(wire, t) && Doable(t, a)
    ensures Stalled(wire, Act(t, a))
  {
  }

  /** A stalled session never writes again, whatever happens: not a message, and not a bind. */
  lemma StalledForGood(s: Session, es: seq<Event>)
    requires Legal(s, es) && Stalled(s.tx.wire, s.tx)
    ensures After(s, es).tx.wire == s.tx.wire
  {
    hide Step, Act, Doable;
    var inv := u => Stalled(s.tx.wire, u);
    forall u, a: Action | inv(u) && Doable(u, a) ensures inv(Act(u, a)) {
      StallsOn(s.tx.wire, u, a);
    }
    KeptByEveryRun(inv, s, es);
  }

  /** An engine can send at all exactly when no message was left on disk for it. */
  lemma SendsIffNoBacklog(cfg: Config, backlog: seq<Pdu>, t: nat)
    ensures (exists es :: Legal(Init(cfg, backlog, t), es) && After(Init(cfg, backlog, t), es).tx.wire != []) <==> backlog == []
  {
    var init := Init(cfg, backlog, t);
    if backlog == [] {
      LegalSnoc(init, [], Connected(true));
      assert Step(init, Connected(true)).tx.wire != [];
      assert After(init, [] + [Connected(true)]).tx.wire != [];
    } else {
      forall es | Legal(init, es) ensures After(init, es).tx.wire == [] {
        StalledForGood(init, es);
      }
    }
  }

  /** Nor does a reconnect restore sending in every case: an engine that reconnects after a close will write again, its bind
      to begin with, exactly when no message was queued at the close. */
  lemma ReconnectSendsIff(s: Session)
    requires s.ctl.closes > 0 && !s.ctl.stop && s.ctl.reconnect
    ensures var c := Step(s, Close);
            (exists es :: Legal(c, es) && After(c, es).tx.wire != c.tx.wire) <==> s.tx.txQ.message == []
  {
    var c := Step(s, Close);
    if s.tx.txQ.message == [] {
      LegalSnoc(c, [], Connected(true));
      assert |Step(c, Connected(true)).tx.wire| == |c.tx.wire| + 1;
      assert After(c, [] + [Connected(true)]).tx.wire != c.tx.wire;
    } else {
      forall es | Legal(c, es) ensures After(c, es).tx.wire == c.tx.wire {
        StalledForGood(c, es);
      }
    }
  }

  /** One lost connection is enough to come to that: a bound session with a message under way loses its connection, the
      aborted write puts the message back, and the session, though not stopped and about to connect again, is silent
      for good. Binding.GetsReady leads to such a session. */
  lemma LostConnectionStalls(s: Session, p: Pdu)
    requires Ready(s) && Sendable(s.ctl.state, p.id)
    ensures var es := [Send(p), ReadError(HeaderRead, true)] + [Close, WriteError(true, 0)];
            && Legal(s, es) && var u := After(s, es);
            && !u.ctl.stop && u.ctl.connects == 1
            && forall fs | Legal(u, fs) :: After(u, fs).tx.wire == u.tx.wire
  {
    hide Step, Sendable;
    SendGoesOut(s, p);
    var s1 := Step(s, Send(p));
    Failures.HangsUp(s1);
    var s2 := Step(s1, ReadError(HeaderRead, true));
    LegalPair(s, Send(p), ReadError(HeaderRead, true));
    AbortPutsBack(s2, Outgoing(s.tx, p));
    LegalPair(s2, Close, WriteError(true, 0));
    LegalAppend(s, [Send(p), ReadError(HeaderRead, true)], [Close, WriteError(true, 0)]);
    var u := Step(Step(s2, Close), WriteError(true, 0));
    forall fs | Legal(u, fs) ensures After(u, fs).tx.wire == u.tx.wire {
      StalledForGood(u, fs);
    }
  }

  lemma AbortPutsBack(s: Session, w: Tagged)
    requires s.ctl.closes > 0 && !s.ctl.stop && s.ctl.reconnect && s.ctl.connects == 0
    requires s.tx.txQ == TxQ([], [], [], Some(w)) && w.level == MESSAGE && s.tx.writes == [w] && s.tx.staleWrites == []
    ensures Enabled(s, Close) && Enabled(Step(s, Close), WriteError(true, 0))
    ensures var u := Step(Step(s, Close), WriteError(true, 0));
            !u.ctl.stop && u.ctl.connects == 1 && u.tx.txQ.message == [w.pdu] && u.tx.writes == []
  {
  }
}

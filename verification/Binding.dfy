// How a session gets bound, and what the first sends of a bound session do. The lemmas that show a property
// to fail start from a session that has come this way.
module Binding {
  import opened Smpp
  import opened SequenceNumbers
  import opened TransmitQueue
  import opened Transmitter
  import opened Session
  import opened StateSafety

  // A bound session at rest: all it has written has completed, nothing awaits a response, no throttle holds it up.
  ghost predicate Ready(s: Session) {
    && s.ctl.state == BoundStateOf(s.cfg.bindType) && !s.ctl.stop
    && s.ctl.connects == 0 && s.ctl.closes == 0 && s.ctl.headers == 1 && s.ctl.bodies == 0 && s.ctl.stale == 0
    && s.tx.txQ.Empty() && s.tx.open && s.tx.writes == [] && s.tx.staleWrites == [] && s.tx.w4rQ == map[]
    && s.tx.draws == 2 && s.tx.nextNum == Nth(2) && s.tx.throttleNext <= s.tx.now && s.tx.interval == s.cfg.Interval()
    && s.age.Some? && s.link.Some? && s.resp.None? && forall n :: Resent(n) !in s.tx.acks
  }

  // The message centre's answer to the first bind, which goes out under the second number.
  function Welcome(cfg: Config): Pdu { ResponseTo(BindRequest(cfg).(num := SEQ_MIN + 1)) }

  // The session connects, its bind is written and answered, and one interval passes.
  function BindRun(cfg: Config): seq<Event> {
    [Connected(true), WriteOk(0)] + [HeaderOk, BodyOk(Welcome(cfg), true)] + [Tick(cfg.Interval())]
  }

  lemma Binds(cfg: Config, t: nat)
    ensures var init := Init(cfg, [], t); Enabled(init, Connected(true)) && var s := Step(init, Connected(true));
            && s.cfg == cfg && s.ctl == Control(OPEN, false, false, 0, 1, 0, 0, 0, 1, 0)
            && s.tx.writes == [Tagged(BindRequest(cfg).(num := SEQ_MIN + 1), SESSION)] && s.tx.txQ.lastPop == Some(s.tx.writes[0])
            && s.tx.txQ.Empty() && s.tx.open && s.tx.staleWrites == [] && s.tx.w4rQ == map[]
            && s.tx.draws == 2 && s.tx.nextNum == Nth(2) && s.tx.throttleNext == s.tx.now + s.tx.interval
            && s.tx.interval == cfg.Interval() && s.age.Some? && s.tx.acks == []
  {
    assert Nth(1) == Succ(Nth(0)) && Nth(2) == Succ(Nth(1));
  }

  lemma BindIsAnswered(s: Session)
    requires s.tx.writes == [Tagged(BindRequest(s.cfg).(num := SEQ_MIN + 1), SESSION)] && s.tx.txQ.lastPop == Some(s.tx.writes[0])
    requires s.ctl.state == OPEN && s.ctl.headers == 1 && s.ctl.bodies == 0 && s.tx.txQ.Empty() && s.tx.w4rQ == map[]
    ensures Enabled(s, WriteOk(0)) && Enabled(Step(s, WriteOk(0)), HeaderOk)
    ensures Enabled(Step(Step(s, WriteOk(0)), HeaderOk), BodyOk(Welcome(s.cfg), true))
    ensures var v := Step(Step(Step(s, WriteOk(0)), HeaderOk), BodyOk(Welcome(s.cfg), true));
            && v.cfg == s.cfg && v.ctl == s.ctl.(state := BoundStateOf(s.cfg.bindType))
            && v.tx == s.tx.(writes := [], w4rQ := map[], acks := v.tx.acks)
            && v.age == s.age && v.link.Some? && v.resp.None?
            && forall n :: Resent(n) in v.tx.acks ==> Resent(n) in s.tx.acks
  {
    hide Step;
    BindCompletes(s);
    HeaderComes(Step(s, WriteOk(0)));
    WelcomeComes(Step(Step(s, WriteOk(0)), HeaderOk));
  }

  lemma BindCompletes(s: Session)
    requires s.tx.writes == [Tagged(BindRequest(s.cfg).(num := SEQ_MIN + 1), SESSION)] && s.tx.txQ.lastPop == Some(s.tx.writes[0])
    requires s.tx.txQ.Empty()
    ensures Enabled(s, WriteOk(0)) && var u := Step(s, WriteOk(0)); var w := s.tx.writes[0];
            u == s.(tx := s.tx.(writes := [], acks := s.tx.acks + [Completed(w)],
                                w4rQ := s.tx.w4rQ[w.pdu.num := Stamped(w.pdu, Seconds(s.tx.now))]))
  {
  }

  lemma HeaderComes(s: Session)
    requires s.ctl.headers > 0
    ensures Enabled(s, HeaderOk)
    ensures Step(s, HeaderOk) == s.(ctl := s.ctl.(headers := s.ctl.headers - 1, bodies := s.ctl.bodies + 1))
  {
  }

  lemma WelcomeComes(s: Session)
    requires s.ctl.state == OPEN && s.ctl.bodies > 0 && s.tx.w4rQ.Keys == {SEQ_MIN + 1}
    ensures Enabled(s, BodyOk(Welcome(s.cfg), true)) && var v := Step(s, BodyOk(Welcome(s.cfg), true));
            && v.cfg == s.cfg && v.age == s.age && v.link.Some? && v.resp.None?
            && v.ctl == s.ctl.(state := BoundStateOf(s.cfg.bindType), headers := s.ctl.headers + 1, bodies := s.ctl.bodies - 1)
            && v.tx == s.tx.(w4rQ := map[], acks := s.tx.acks + [Answered(SEQ_MIN + 1)])
  {
    assert s.tx.w4rQ - {SEQ_MIN + 1} == map[];
  }

  /** Every configuration gets bound, and then rests. */
  lemma GetsReady(cfg: Config, t: nat)
    ensures Legal(Init(cfg, [], t), BindRun(cfg))
    ensures var s := After(Init(cfg, [], t), BindRun(cfg)); Ready(s) && s.cfg == cfg
  {
    hide Step;
    var init := Init(cfg, [], t);
    Binds(cfg, t);
    var s := Step(init, Connected(true));
    BindIsAnswered(s);
    var u := Step(s, WriteOk(0));
    var v := Step(Step(u, HeaderOk), BodyOk(Welcome(cfg), true));
    LegalPair(init, Connected(true), WriteOk(0));
    LegalPair(u, HeaderOk, BodyOk(Welcome(cfg), true));
    LegalAppend(init, [Connected(true), WriteOk(0)], [HeaderOk, BodyOk(Welcome(cfg), true)]);
    TimePasses(v, cfg.Interval());
    LegalSnoc(init, [Connected(true), WriteOk(0)] + [HeaderOk, BodyOk(Welcome(cfg), true)], Tick(cfg.Interval()));
  }

  lemma TimePasses(s: Session, d: nat)
    ensures Enabled(s, Tick(d)) && Step(s, Tick(d)) == s.(tx := s.tx.Wait(d))
  {
  }

  // A user's PDU as it goes out.
  function Outgoing(t: Transmitter, p: Pdu): Tagged { Tagged(p.(num := t.NumberFor(p)), MESSAGE) }

  /** A bound session with nothing queued writes what it is sent at once. */
  lemma SendGoesOut(s: Session, p: Pdu)
    requires s.tx.txQ.Empty() && Sendable(s.ctl.state, p.id)
    ensures var u, w := Step(s, Send(p)), Outgoing(s.tx, p);
            && u.ctl == s.ctl && u.cfg == s.cfg && u.age == s.age && u.link == s.link && u.tx.open == s.tx.open && u.tx.interval == s.tx.interval
            && u.tx.accepted == s.tx.accepted + [Tagged(p, MESSAGE)]
            && u.tx.txQ == TxQ([], [], [], Some(w)) && u.tx.w4rQ == s.tx.w4rQ && u.tx.acks == s.tx.acks
            && (s.tx.open ==> u.tx.writes == s.tx.writes + [w] && u.tx.staleWrites == s.tx.staleWrites)
            && u.tx.nextNum == (if p.num <= SEQ_MIN then Succ(s.tx.nextNum) else s.tx.nextNum)
            && u.tx.now == (if s.tx.now < s.tx.throttleNext then s.tx.throttleNext else s.tx.now)
            && u.tx.wire == s.tx.wire + [Sent(w.pdu, MESSAGE, s.tx.now, u.tx.now)]
            && u.tx.throttleNext == s.tx.now + s.tx.interval
  {
  }
}

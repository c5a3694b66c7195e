// What each event makes the engine do, in the protocol's own terms: command ids (section 4.7.5 of SMPP v5.0), the
// configured credentials, and times and limits in figures. Times are in microseconds.
module Protocol {
  import opened Smpp
  import opened SequenceNumbers
  import opened TransmitQueue
  import opened Transmitter
  import opened Session
  import opened Refinement
  import opened Binding
  import Silence

  // ---------------------------------------------------------------- what the engine hands over

  // From t to u one PDU was handed over at this level, with this id and body and no error; out of an empty queue it
  // went on the wire.
  ghost predicate HandsOverOne(t: Transmitter, u: Transmitter, id: nat, body: seq<byte>, level: Level) {
    && |u.accepted| == |t.accepted| + 1 && u.accepted[..|t.accepted|] == t.accepted
    && IsOne(u.accepted[|t.accepted|].pdu, id, body) && u.accepted[|t.accepted|].level == level
    && if t.txQ.Empty() then
         && |u.wire| == |t.wire| + 1 && u.wire[..|t.wire|] == t.wire
         && IsOne(u.wire[|t.wire|].pdu, id, body) && u.wire[|t.wire|].level == level
       else u.wire == t.wire
  }

  predicate IsOne(p: Pdu, id: nat, body: seq<byte>) { p.id == id && p.status == 0 && p.body == body }

  ghost predicate HandsOverNothing(t: Transmitter, u: Transmitter) { u.accepted == t.accepted && u.wire == t.wire }

  lemma DoWriteHandsOver(t: Transmitter, p: Pdu, level: Level)
    ensures var u := t.DoWrite(p, level);
            && u.accepted == t.accepted + [Tagged(p, level)]
            && if t.txQ.Empty() then
                 |u.wire| == |t.wire| + 1 && u.wire[..|t.wire|] == t.wire
                 && u.wire[|t.wire|].pdu == p.(num := t.NumberFor(p)) && u.wire[|t.wire|].level == level
               else u.wire == t.wire
  {
  }

  // The bind request that a configured kind of bind calls for.
  function BindId(t: BindType): nat {
    if t == TRX then 0x0000_0009 else if t == TX then 0x0000_0002 else 0x0000_0001
  }

  /** A connection is opened with a bind of the configured kind that carries the configured credentials. */
  lemma ConnectionBinds(s: Session)
    requires Enabled(s, Connected(true))
    ensures HandsOverOne(s.tx, Step(s, Connected(true)).tx, BindId(s.cfg.bindType), s.cfg.credentials, SESSION)
  {
    hide Transmitter.DoWrite;
    DoWriteHandsOver(s.tx.Opened().DrawNumber(), BindRequest(s.cfg).(num := s.tx.nextNum), SESSION);
  }

  /** So is an outbind answered. */
  lemma OutbindBinds(s: Session, p: Pdu, decodes: bool)
    requires Enabled(s, BodyOk(p, decodes)) && s.ctl.state == OPEN && p.id == 0x0000_000B
    ensures HandsOverOne(s.tx, Step(s, BodyOk(p, decodes)).tx, BindId(s.cfg.bindType), s.cfg.credentials, SESSION)
  {
    hide Transmitter.DoWrite;
    var t := s.tx.W4rqPop(p);
    DoWriteHandsOver(t.DrawNumber(), BindRequest(s.cfg).(num := t.nextNum), SESSION);
  }

  /** The link is tested with an enquire_link. */
  lemma LinkTimerTests(s: Session)
    requires Enabled(s, LinkTimer(false))
    ensures HandsOverOne(s.tx, Step(s, LinkTimer(false)).tx, 0x0000_0015, [], SESSION)
  {
    hide Transmitter.DoWrite;
    DoWriteHandsOver(s.tx.DrawNumber(), LINK_TEST.(num := s.tx.nextNum), SESSION);
  }

  // The events that ask for a close through close_session.
  predicate ClosesSession(s: Session, e: Event) {
    match e
    case StopCall => true
    case RespTimer(aborted) => !aborted && !s.ctl.stop
    case ReadError(_, eof) => !eof && !s.ctl.stop
    case _ => false
  }

  lemma CloseSessionUnbinds(s: Session, reconnect: bool)
    requires s.ctl.state != OUTBOUND
    ensures var bound := s.ctl.state == BOUND_TX || s.ctl.state == BOUND_RX || s.ctl.state == BOUND_TRX;
            var u := CloseSession(s, reconnect);
            if bound then HandsOverOne(s.tx, u.tx, 0x0000_0006, [], SESSION) else HandsOverNothing(s.tx, u.tx)
  {
    hide Transmitter.DoWrite;
    DoWriteHandsOver(s.tx, UNBIND_REQUEST, SESSION);
  }

  /** A session is closed with an unbind exactly if it is bound. */
  lemma ClosingUnbinds(s: Session, e: Event)
    requires Enabled(s, e) && ClosesSession(s, e) && s.ctl.state != OUTBOUND
    ensures var bound := s.ctl.state == BOUND_TX || s.ctl.state == BOUND_RX || s.ctl.state == BOUND_TRX;
            if bound then HandsOverOne(s.tx, Step(s, e).tx, 0x0000_0006, [], SESSION) else HandsOverNothing(s.tx, Step(s, e).tx)
  {
    hide CloseSession, HandsOverOne;
    match e
    case StopCall => CloseSessionUnbinds(s.(ctl := s.ctl.(stop := true)), false);
    case RespTimer(_) => CloseSessionUnbinds(s.(resp := None, ctl := s.ctl.(reconnect := true)), false);
    case ReadError(f, _) => CloseSessionUnbinds(s.(ctl := ReadFailed(s.ctl, f)), true);
  }

  /** Of itself the engine hands over nothing else, but for what it answers and resends. */
  lemma OthersHandOverNothing(s: Session, e: Event)
    requires Enabled(s, e) && !e.BodyOk? && !e.Send? && !ClosesSession(s, e)
    requires e != Connected(true) && e != LinkTimer(false) && e != AgeTimer(false)
    ensures Step(s, e).tx.accepted == s.tx.accepted
  {
    hide Transmitter.WritePdu;
    if e.WriteOk? && !s.tx.txQ.Empty() {
      WriteFrame(s.tx.Filed(e.i));
    }
  }

  // ---------------------------------------------------------------- what users may send

  // The nine requests that a session bound as a transmitter sends: query_sm, submit_sm, replace_sm, cancel_sm,
  // submit_multi, data_sm, broadcast_sm, query_broadcast_sm and cancel_broadcast_sm; and the two responses of one bound as
  // a receiver, deliver_sm_resp and data_sm_resp.
  predicate TransmitterIssues(id: nat) {
    || id == 0x0000_0003 || id == 0x0000_0004 || id == 0x0000_0007 || id == 0x0000_0008 || id == 0x0000_0021
    || id == 0x0000_0103 || id == 0x0000_0111 || id == 0x0000_0112 || id == 0x0000_0113
  }

  predicate ReceiverIssues(id: nat) { id == 0x8000_0005 || id == 0x8000_0103 }

  predicate Takes(state: SessionState, id: nat) {
    || (TransmitterIssues(id) && (state == BOUND_TX || state == BOUND_TRX))
    || (ReceiverIssues(id) && (state == BOUND_RX || state == BOUND_TRX))
  }

  /** What a user sends is handed over as it is in the states that take its command id, and refused in all others. */
  lemma SendTakesIff(s: Session, p: Pdu)
    ensures Enabled(s, Send(p))
    ensures var u := Step(s, Send(p));
            if Takes(s.ctl.state, p.id) then u.tx.accepted == s.tx.accepted + [Tagged(p, MESSAGE)] else u == s
  {
    hide Transmitter.DoWrite;
    DoWriteHandsOver(s.tx, p, MESSAGE);
  }

  /** In particular a submit_sm goes straight out of an empty queue in the two states that transmit. */
  lemma SubmitGoesOut(s: Session, p: Pdu)
    requires p.id == 0x0000_0004 && (s.ctl.state == BOUND_TX || s.ctl.state == BOUND_TRX) && s.tx.txQ.Empty()
    ensures var u := Step(s, Send(p));
            && u.tx.accepted == s.tx.accepted + [Tagged(p, MESSAGE)] && u.tx.txQ.Empty()
            && |u.tx.wire| == |s.tx.wire| + 1 && u.tx.wire[|s.tx.wire|].pdu == Outgoing(s.tx, p).pdu
  {
    hide Step;
    SendGoesOut(s, p);
  }

  // ---------------------------------------------------------------- the map of requests

  /** A response takes the request of its number off the map, whatever its status; nothing else that is read touches it. */
  lemma ResponseTakesOff(s: Session, p: Pdu, decodes: bool)
    requires Enabled(s, BodyOk(p, decodes))
    ensures Step(s, BodyOk(p, decodes)).tx.w4rQ == if p.id > 0x8000_0000 then s.tx.w4rQ - {p.num} else s.tx.w4rQ
  {
    hide Step, Act, Doable, Reacts, Perform, AllDoable;
    var e, t := BodyOk(p, decodes), s.tx.W4rqPop(p);
    TransmissionRefines(s, e);
    ReadsOff(s.tx, p);
    One(s.tx, Read(p));
    var rest := ReactionActions(s.cfg, s.ctl.state, p, Reacts(s.ctl.state, p, decodes));
    if rest == [] {
      assert [Read(p)] + [] == [Read(p)];
    } else {
      var a := rest[0];
      assert rest == [a] && (a.Accept? || a.Issue?) && [Read(p)] + [a] == [Read(p), a];
      HandOverKeepsMap(t, a);
      Two(s.tx, Read(p), a);
    }
  }

  lemma ReadsOff(t: Transmitter, p: Pdu)
    ensures Doable(t, Read(p)) && Act(t, Read(p)) == t.W4rqPop(p)
    ensures t.W4rqPop(p).w4rQ == if p.id > 0x8000_0000 then t.w4rQ - {p.num} else t.w4rQ
  {
  }

  lemma HandOverKeepsMap(t: Transmitter, a: Action)
    requires a.Accept? || a.Issue?
    ensures Doable(t, a) && Act(t, a).w4rQ == t.w4rQ
  {
    hide Transmitter.DoWrite;
    if a.Accept? {
      HandOverFrame(t, a.pdu, a.level);
    } else {
      HandOverFrame(t.DrawNumber(), a.pdu.(num := t.nextNum), a.level);
    }
  }

  /** A completion files the PDU popped last if it is no response, stamped with the second it is. */
  lemma CompletionFiles(s: Session, i: nat)
    requires Enabled(s, WriteOk(i))
    ensures var last := s.tx.txQ.lastPop;
            Step(s, WriteOk(i)).tx.w4rQ ==
              if last.Some? && last.value.pdu.id < 0x8000_0001 then
                s.tx.w4rQ[last.value.pdu.num := Stamped(last.value.pdu, s.tx.now / 1_000_000)]
              else s.tx.w4rQ
  {
    hide Transmitter.WritePdu;
    if !s.tx.txQ.Empty() {
      WriteFrame(s.tx.Filed(i));
    }
  }

  /** And it goes on to write exactly if the session is bound, something is queued, and fewer than ten await a response. */
  lemma CompletionWritesIff(s: Session, i: nat)
    requires Enabled(s, WriteOk(i))
    ensures var u := Step(s, WriteOk(i));
            var bound := s.ctl.state == BOUND_TX || s.ctl.state == BOUND_RX || s.ctl.state == BOUND_TRX;
            if bound && !s.tx.txQ.Empty() && |u.tx.w4rQ| < 10 then |u.tx.wire| == |s.tx.wire| + 1 else u.tx.wire == s.tx.wire
  {
    hide Transmitter.WritePdu;
    if !s.tx.txQ.Empty() {
      WriteFrame(s.tx.Filed(i));
      WriteWrites(s.tx.Filed(i));
    }
  }

  lemma WriteWrites(t: Transmitter)
    requires !t.txQ.Empty()
    ensures |t.WritePdu().wire| == |t.wire| + 1
  {
  }

  /** A visit of the sweep resends a request exactly if thirty seconds or more have passed since it was filed; and what it
      takes off the map is the number that the request then has: the one it went out under, or else its own. */
  lemma VisitResendsIff(t: Transmitter, k: nat)
    requires k in t.w4rQ
    ensures var u, p := t.Visit(k), t.w4rQ[k].pdu;
            if t.now / 1_000_000 - t.w4rQ[k].stamp >= 30 then
              && u.accepted == t.accepted + [Tagged(p, MESSAGE)]
              && if t.txQ.Empty() then
                   |u.wire| == |t.wire| + 1 && u.w4rQ == t.w4rQ - {u.wire[|t.wire|].pdu.num}
                 else u.wire == t.wire && u.w4rQ == t.w4rQ - {p.num}
            else u == t
  {
    hide Transmitter.DoWrite;
    HandOverFrame(t, t.w4rQ[k].pdu, MESSAGE);
    DoWriteHandsOver(t, t.w4rQ[k].pdu, MESSAGE);
  }

  // ---------------------------------------------------------------- bodies that do not decode

  // The PDUs whose bodies the engine decodes, by state: enquire_link in every state but CLOSED; unbind when bound;
  // deliver_sm when bound to receive; submit_sm_resp without error when bound to transmit.
  predicate LooksInto(state: SessionState, p: Pdu) {
    var transmits, receives := state == BOUND_TX || state == BOUND_TRX, state == BOUND_RX || state == BOUND_TRX;
    || (p.id == 0x0000_0015 && state != CLOSED)
    || (p.id == 0x0000_0006 && (transmits || receives))
    || (p.id == 0x0000_0005 && receives)
    || (p.id == 0x8000_0004 && p.status == 0 && transmits)
  }

  /** A body that does not decode makes a bound session ask to be unbound. */
  lemma UndecodableUnbinds(s: Session, p: Pdu)
    requires Enabled(s, BodyOk(p, false)) && LooksInto(s.ctl.state, p) && s.ctl.state != OUTBOUND
    ensures var bound := s.ctl.state == BOUND_TX || s.ctl.state == BOUND_RX || s.ctl.state == BOUND_TRX;
            var u := Step(s, BodyOk(p, false)).tx;
            if bound then HandsOverOne(s.tx, u, 0x0000_0006, [], SESSION) else HandsOverNothing(s.tx, u)
  {
    hide HandleBodyOk, CloseSession;
    ReadingReacts(s, p, false);
    CloseSessionUnbinds(ReadyToReact(s, p, false), true);
  }

  /** A body that does not decode makes the session close and connect again, in the state it is in, exactly if the engine
      looks into it; if it does not, nothing comes of it. */
  lemma UndecodableCloses(s: Session, p: Pdu)
    requires Enabled(s, BodyOk(p, false))
    ensures var c, u := s.ctl, Step(s, BodyOk(p, false)).ctl;
            if LooksInto(c.state, p) then
              u == c.(headers := c.headers + 1, bodies := c.bodies - 1, reconnect := true, closes := c.closes + 1, posts := c.posts + 1)
            else u == Step(s, BodyOk(p, true)).ctl
  {
    hide Step;
    ControlRefines(s, BodyOk(p, false));
    ControlRefines(s, BodyOk(p, true));
  }

  // ---------------------------------------------------------------- reads that fail

  /** A read that fails ends that read and no other. Unless the session was stopped it asks for a close with reconnect, at
      an end of file in the state CLOSED, at any other error in the state it is in. */
  lemma ReadErrorEndsOne(s: Session, f: Failing, eof: bool)
    requires Enabled(s, ReadError(f, eof))
    ensures var c, u := s.ctl, Step(s, ReadError(f, eof)).ctl;
            && u.headers == c.headers - (if f == HeaderRead then 1 else 0)
            && u.bodies == c.bodies - (if f == BodyRead then 1 else 0)
            && u.stale == c.stale - (if f == StaleRead then 1 else 0)
            && u.connects == c.connects && u.issued == c.issued && u.stop == c.stop
            && if c.stop then u.state == c.state && u.closes == c.closes && u.reconnect == c.reconnect
               else u.state == (if eof then CLOSED else c.state) && u.closes == c.closes + 1 && u.reconnect
  {
    hide Step;
    ControlRefines(s, ReadError(f, eof));
  }

  // ---------------------------------------------------------------- times

  /** A reconnect waits one second after the close, and five after a connect that failed. */
  lemma ReconnectWaits(s: Session)
    requires !s.ctl.stop
    ensures s.ctl.closes > 0 && s.ctl.reconnect ==> Step(s, Close).tx.now == s.tx.now + 1_000_000
    ensures s.ctl.connects > 0 ==> Step(s, Connected(false)).tx.now == s.tx.now + 5_000_000
  {
  }

  /** The link test is due one period after a PDU was read, and its response one timeout after the test was written. */
  lemma LinkTimersSet(s: Session, e: Event)
    requires Enabled(s, e) && (e.BodyOk? || e == LinkTimer(false))
    ensures var u := Step(s, e);
            if e.BodyOk? then u.link == Some(s.tx.now + s.cfg.linkPeriod * 1_000_000) && u.resp.None?
            else u.link.None? && u.resp == Some(u.tx.now + s.cfg.linkTimeout * 1_000_000)
  {
    hide Step;
    Silence.TimersStep(s, e);
  }

  /** The numbers drawn run from 1 to 0x7FFFFFFF and then start again. */
  lemma NumbersDrawn(k: nat)
    ensures Nth(k) == 1 + k % 0x7FFF_FFFF
  {
    NthIsCyclic(k);
  }
}

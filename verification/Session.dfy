// The SMPP session engine as a function from state and event to state. Each function here is what
// the method of the same name in class SessionManager is proved to do.
module Session {
  import opened Smpp
  import opened TransmitQueue
  import opened Transmitter

  datatype SessionState = OPEN | BOUND_TX | BOUND_RX | BOUND_TRX | UNBOUND | CLOSED | OUTBOUND
  {
    predicate Bound() { this == BOUND_TX || this == BOUND_RX || this == BOUND_TRX }
  }

  datatype BindType = TX | RX | TRX

  type pos = n: int | 0 < n witness 1

  datatype Config = Config(bindType: BindType, linkPeriod: nat, linkTimeout: nat, txLimit: pos, credentials: seq<byte>) {
    // timeBetweenSends, in microseconds
    function Interval(): nat { SECOND / txLimit }
  }

  /** Session state and flags; then the connects, reads and posted closes that have not completed yet; then how many
      connects and closes were ever asked for, which the engine never looks at. A read under way when the socket
      closes is stale: it can only complete with an error. */
  datatype Control = Control(state: SessionState, stop: bool, reconnect: bool,
                             connects: nat, headers: nat, bodies: nat, stale: nat, closes: nat,
                             issued: nat, posts: nat) {
    function Reads(): nat { headers + bodies + stale }

    function Connect(): Control { this.(connects := connects + 1, issued := issued + 1) }

    function PostClose(): Control { this.(closes := closes + 1, posts := posts + 1) }

    function Closed(): Control
      requires closes > 0
    {
      this.(state := CLOSED, headers := 0, bodies := 0, stale := Reads(), closes := closes - 1)
    }
  }

  // A PDU read from the message centre, and the state it was processed in.
  datatype Received = Received(pdu: Pdu, state: SessionState, decodes: bool)

  datatype Session = Session(cfg: Config, ctl: Control, tx: Transmitter,
                             link: Option<nat>, resp: Option<nat>, age: Option<nat>,  // deadlines of the armed timers
                             rxQ: seq<Pdu>, received: seq<Received>)

  // ---------------------------------------------------------------- start and connection

  function Init(cfg: Config, backlog: seq<Pdu>, now: nat): Session {
    Session(cfg, Control(CLOSED, false, false, 1, 0, 0, 0, 0, 1, 0), Start(cfg.Interval(), backlog, now),
            None, None, Some(now + cfg.linkPeriod * SECOND), [], [])
  }

  function CloseSession(s: Session, reconnect: bool): Session {
    var s1 := s.(ctl := s.ctl.(reconnect := reconnect));
    var s2 := if s.ctl.state.Bound() || s.ctl.state == OUTBOUND then DoUnbindRequest(s1) else s1;
    s2.(ctl := s2.ctl.PostClose())
  }

  function Stop(s: Session): Session { CloseSession(s.(ctl := s.ctl.(stop := true)), false) }

  function CloseConnection(s: Session): Session
    requires s.ctl.closes > 0
  {
    var s1 := s.(ctl := s.ctl.Closed(), tx := s.tx.Closed(), link := None, resp := None, age := None);
    if !s.ctl.stop && s.ctl.reconnect then
      s1.(ctl := s1.ctl.(reconnect := false).Connect(), tx := s1.tx.Wait(SECOND))
    else s1
  }

  function HandleConnect(s: Session, ok: bool): Session
    requires s.ctl.connects > 0
  {
    var s1 := s.(ctl := s.ctl.(connects := s.ctl.connects - 1));
    if ok then
      var s2 := DoBindRequest(s1.(ctl := s1.ctl.(state := OPEN), tx := s1.tx.Opened()));
      s2.(ctl := s2.ctl.(headers := s2.ctl.headers + 1))
    else if !s.ctl.stop then
      s1.(ctl := s1.ctl.Connect(), tx := s1.tx.Wait(5 * SECOND))
    else s1
  }

  // ---------------------------------------------------------------- writing

  function DoWrite(s: Session, p: Pdu, level: Level): Session { s.(tx := s.tx.DoWrite(p, level)) }

  function HandleWriteOk(s: Session, i: nat): Session
    requires i < |s.tx.writes|
  {
    s.(tx := s.tx.WriteOk(i, s.ctl.state.Bound()))
  }

  function HandleWriteError(s: Session, stale: bool, i: nat): Session
    requires s.tx.CanFail(stale, i)
  {
    var s1 := s.(tx := s.tx.WriteError(stale, i));
    if !s.ctl.stop then s1.(ctl := s.ctl.(state := CLOSED, reconnect := true).PostClose()) else s1
  }

  // ---------------------------------------------------------------- requests of the engine and of its users

  function BindRequestId(t: BindType): nat {
    match t case TX => BIND_TRANSMITTER case RX => BIND_RECEIVER case TRX => BIND_TRANSCEIVER
  }

  function BindRequest(cfg: Config): Pdu { Pdu(BindRequestId(cfg.bindType), ESME_ROK, 0, cfg.credentials) }

  const UNBIND_REQUEST: Pdu := Pdu(UNBIND, ESME_ROK, 0, [])
  const LINK_TEST: Pdu := Pdu(ENQUIRE_LINK, ESME_ROK, 0, [])

  function DoBindRequest(s: Session): Session { s.(tx := s.tx.DoWriteNumbered(BindRequest(s.cfg), SESSION)) }

  function DoUnbindRequest(s: Session): Session { DoWrite(s, UNBIND_REQUEST, SESSION) }

  predicate SentWhenBoundTx(id: nat) {
    id in {BROADCAST_SM, CANCEL_BROADCAST_SM, CANCEL_SM, DATA_SM, QUERY_BROADCAST_SM, QUERY_SM, REPLACE_SM, SUBMIT_MULTI, SUBMIT_SM}
  }

  predicate SentWhenBoundRx(id: nat) { id in {DATA_SM_RESP, DELIVER_SM_RESP} }

  predicate Sendable(state: SessionState, id: nat) {
    match state
    case BOUND_TX => SentWhenBoundTx(id)
    case BOUND_RX => SentWhenBoundRx(id)
    case BOUND_TRX => SentWhenBoundTx(id) || SentWhenBoundRx(id)
    case _ => false
  }

  function SendPdu(s: Session, p: Pdu): Session {
    if Sendable(s.ctl.state, p.id) then DoWrite(s, p, MESSAGE) else s
  }

  // ---------------------------------------------------------------- reading

  function HandleHeaderOk(s: Session): Session
    requires s.ctl.headers > 0
  {
    s.(ctl := s.ctl.(headers := s.ctl.headers - 1, bodies := s.ctl.bodies + 1))
  }

  function HandleBodyOk(s: Session, p: Pdu, decodes: bool): Session
    requires s.ctl.bodies > 0
  {
    var s1 := s.(ctl := s.ctl.(bodies := s.ctl.bodies - 1), tx := s.tx.W4rqPop(p),
                 received := s.received + [Received(p, s.ctl.state, decodes)]);
    var s2 := Process4State(s1, p, decodes);
    s2.(ctl := s2.ctl.(headers := s2.ctl.headers + 1))
  }

  // The two read handlers treat an error alike. Which read fails: a stale one, a body, a header.
  datatype Failing = StaleRead | BodyRead | HeaderRead

  predicate Outstanding(c: Control, f: Failing) {
    match f
    case StaleRead => c.stale > 0
    case BodyRead => c.bodies > 0
    case HeaderRead => c.headers > 0
  }

  function ReadFailed(c: Control, f: Failing): Control
    requires Outstanding(c, f)
  {
    match f
    case StaleRead => c.(stale := c.stale - 1)
    case BodyRead => c.(bodies := c.bodies - 1)
    case HeaderRead => c.(headers := c.headers - 1)
  }

  function HandleReadError(s: Session, f: Failing, eof: bool): Session
    requires Outstanding(s.ctl, f)
  {
    var s1 := s.(ctl := ReadFailed(s.ctl, f));
    if s.ctl.stop then s1
    else if eof then s1.(ctl := s1.ctl.(state := CLOSED, reconnect := true).PostClose())
    else CloseSession(s1, true)
  }

  function Process4State(s: Session, p: Pdu, decodes: bool): Session {
    var s1 := RescheduleEnquireLink(s);
    if !decodes && Decoded(s.ctl.state, p) then CloseSession(s1, true)  // the decoder's exception
    else
      match s.ctl.state
      case OPEN => Process4StateOpen(s1, p)
      case BOUND_TX => Process4StateBoundTx(s1, p)
      case BOUND_RX => Process4StateBoundRx(s1, p)
      case BOUND_TRX => Process4StateBoundRx(s1, p)
      case OUTBOUND => Process4StateOutbound(s1, p)
      case UNBOUND => Process4StateUnbound(s1, p)
      case CLOSED => s1
  }

  // Whether a handler decodes the body, and so can throw.
  predicate Decoded(state: SessionState, p: Pdu) {
    || (state != CLOSED && p.id == ENQUIRE_LINK)
    || (state.Bound() && p.id == UNBIND)
    || ((state == BOUND_RX || state == BOUND_TRX) && p.id == DELIVER_SM)
    || ((state == BOUND_TX || state == BOUND_TRX) && p.id == SUBMIT_SM_RESP && p.status == ESME_ROK)
  }

  function Process4StateOpen(s: Session, p: Pdu): Session {
    if p.id == OUTBIND then DoBindRequest(s) else Process4StateOutbound(s, p)
  }

  function Process4StateOutbound(s: Session, p: Pdu): Session {
    if p.id == BIND_RECEIVER_RESP then ProcBindResp(s, p, BOUND_RX)
    else if p.id == BIND_TRANSMITTER_RESP then ProcBindResp(s, p, BOUND_TX)
    else if p.id == BIND_TRANSCEIVER_RESP then ProcBindResp(s, p, BOUND_TRX)
    else Process4StateUnbound(s, p)
  }

  function Process4StateBoundTx(s: Session, p: Pdu): Session {
    if p.id == UNBIND then ProcUnbind(s, p)
    else if p.id == UNBIND_RESP then ProcUnbindResp(s)
    else Process4StateUnbound(s, p)
  }

  // The two states that receive differ only in PDUs whose handlers do nothing.
  function Process4StateBoundRx(s: Session, p: Pdu): Session {
    if p.id == DELIVER_SM then ProcDeliverSm(s, p) else Process4StateBoundTx(s, p)
  }

  // What is common to all the states that read: the link test is answered.
  function Process4StateUnbound(s: Session, p: Pdu): Session {
    if p.id == ENQUIRE_LINK then DoWrite(s, ResponseTo(p), RESPONSE)
    else if p.id == ENQUIRE_LINK_RESP then s.(resp := None)
    else s
  }

  function ProcBindResp(s: Session, p: Pdu, success: SessionState): Session {
    if p.status == ESME_ROK then s.(ctl := s.ctl.(state := success)) else s
  }

  function ProcDeliverSm(s: Session, p: Pdu): Session {
    DoWrite(s.(rxQ := s.rxQ + [p]), ResponseTo(p), RESPONSE)
  }

  function ProcUnbind(s: Session, p: Pdu): Session {
    var s1 := DoWrite(s.(ctl := s.ctl.(state := UNBOUND)), ResponseTo(p), RESPONSE);
    s1.(ctl := s1.ctl.(stop := false, reconnect := true).PostClose())
  }

  function ProcUnbindResp(s: Session): Session { CloseSession(s.(ctl := s.ctl.(state := OPEN)), false) }

  // ---------------------------------------------------------------- timers

  function RescheduleEnquireLink(s: Session): Session {
    s.(link := Some(s.tx.now + s.cfg.linkPeriod * SECOND), resp := None)
  }

  function DoEnquireLink(s: Session, aborted: bool): Session {
    if aborted then s
    else
      var s1 := s.(link := None, tx := s.tx.DoWriteNumbered(LINK_TEST, SESSION));
      s1.(resp := Some(s1.tx.now + s.cfg.linkTimeout * SECOND))
  }

  function DoEnquireLinkFailure(s: Session, aborted: bool): Session {
    if aborted then s
    else
      var s1 := s.(resp := None);
      if s.ctl.stop then s1 else CloseSession(s1.(ctl := s.ctl.(reconnect := true)), false)
  }

  function W4rqAgeCleanup(s: Session, aborted: bool): Session {
    if aborted then s
    else
      var s1 := s.(age := None);
      if s.tx.w4rQ == map[] then s1
      else
        var s2 := s1.(tx := s1.tx.Sweep(Ascending(s.tx.w4rQ.Keys)));
        s2.(age := Some(s2.tx.now + s.cfg.linkPeriod * SECOND))
  }

  // ---------------------------------------------------------------- events

  datatype Event =
    | Connected(ok: bool)
    | HeaderOk
    | BodyOk(pdu: Pdu, decodes: bool)
    | ReadError(failing: Failing, eof: bool)
    | WriteOk(i: nat)
    | WriteError(stale: bool, j: nat)
    | Close
    | LinkTimer(aborted: bool)
    | RespTimer(aborted: bool)
    | AgeTimer(aborted: bool)
    | Send(pdu: Pdu)
    | StopCall
    | Tick(d: nat)

  predicate Due(timer: Option<nat>, aborted: bool, now: nat) { aborted || (timer.Some? && timer.value <= now) }

  predicate Enabled(s: Session, e: Event) {
    match e
    case Connected(_) => s.ctl.connects > 0
    case HeaderOk => s.ctl.headers > 0
    case BodyOk(_, _) => s.ctl.bodies > 0
    case ReadError(f, _) => Outstanding(s.ctl, f)
    case WriteOk(i) => i < |s.tx.writes|
    case WriteError(stale, j) => s.tx.CanFail(stale, j)
    case Close => s.ctl.closes > 0
    case LinkTimer(aborted) => Due(s.link, aborted, s.tx.now)
    case RespTimer(aborted) => Due(s.resp, aborted, s.tx.now)
    case AgeTimer(aborted) => Due(s.age, aborted, s.tx.now)
    case _ => true
  }

  function Step(s: Session, e: Event): Session
    requires Enabled(s, e)
  {
    match e
    case Connected(ok) => HandleConnect(s, ok)
    case HeaderOk => HandleHeaderOk(s)
    case BodyOk(p, decodes) => HandleBodyOk(s, p, decodes)
    case ReadError(f, eof) => HandleReadError(s, f, eof)
    case WriteOk(i) => HandleWriteOk(s, i)
    case WriteError(stale, j) => HandleWriteError(s, stale, j)
    case Close => CloseConnection(s)
    case LinkTimer(aborted) => DoEnquireLink(s, aborted)
    case RespTimer(aborted) => DoEnquireLinkFailure(s, aborted)
    case AgeTimer(aborted) => W4rqAgeCleanup(s, aborted)
    case Send(p) => SendPdu(s, p)
    case StopCall => Stop(s)
    case Tick(d) => s.(tx := s.tx.Wait(d))
  }

  // ---------------------------------------------------------------- runs

  // Whether the events can happen one after the other from s.
  predicate Legal(s: Session, es: seq<Event>)
    decreases |es|, 0
  {
    es == [] || (Legal(s, es[..|es| - 1]) && Enabled(After(s, es[..|es| - 1]), es[|es| - 1]))
  }

  function After(s: Session, es: seq<Event>): Session
    requires Legal(s, es)
    decreases |es|, 1
  {
    if es == [] then s else Step(After(s, es[..|es| - 1]), es[|es| - 1])
  }

  /** A run's beginning is a run. */
  lemma {:induction false} LegalPrefix(s: Session, es: seq<Event>, k: nat)
    requires Legal(s, es) && k <= |es|
    ensures Legal(s, es[..k])
  {
    if k < |es| {
      LegalPrefix(s, es[..|es| - 1], k);
      assert es[..|es| - 1][..k] == es[..k];
    } else {
      assert es[..k] == es;
    }
  }

  // The state a run is in after its first k events.
  function At(s: Session, es: seq<Event>, k: nat): Session
    requires Legal(s, es) && k <= |es|
  {
    LegalPrefix(s, es, k);
    After(s, es[..k])
  }

  lemma AtStep(s: Session, es: seq<Event>, k: nat)
    requires Legal(s, es) && k < |es|
    ensures Enabled(At(s, es, k), es[k]) && At(s, es, k + 1) == Step(At(s, es, k), es[k])
  {
    LegalPrefix(s, es, k + 1);
    assert es[..k + 1][..k] == es[..k];
  }

  /** A run starts in its first state and ends in its last. */
  lemma AtEnds(s: Session, es: seq<Event>)
    requires Legal(s, es)
    ensures At(s, es, 0) == s && At(s, es, |es|) == After(s, es)
  {
    assert es[..|es|] == es;
  }

  lemma LegalNone(s: Session)
    ensures Legal(s, []) && After(s, []) == s
  {
  }

  lemma LegalSnoc(s: Session, es: seq<Event>, e: Event)
    requires Legal(s, es) && Enabled(After(s, es), e)
    ensures Legal(s, es + [e]) && After(s, es + [e]) == Step(After(s, es), e)
  {
    assert (es + [e])[..|es|] == es;
  }

  lemma {:induction false} LegalAppend(s: Session, xs: seq<Event>, ys: seq<Event>)
    requires Legal(s, xs) && Legal(After(s, xs), ys)
    ensures Legal(s, xs + ys) && After(s, xs + ys) == After(After(s, xs), ys)
  {
    hide Step;
    if ys == [] {
      assert xs + ys == xs;
    } else {
      var zs, y := ys[..|ys| - 1], ys[|ys| - 1];
      LegalAppend(s, xs, zs);
      LegalSnoc(s, xs + zs, y);
      assert xs + zs + [y] == xs + ys;
    }
  }

  /** A run in two parts is a run and a run from where it ended. */
  lemma {:induction false} LegalSplit(s: Session, xs: seq<Event>, ys: seq<Event>)
    requires Legal(s, xs + ys)
    ensures Legal(s, xs) && Legal(After(s, xs), ys) && After(s, xs + ys) == After(After(s, xs), ys)
  {
    hide Step;
    if ys == [] {
      assert xs + ys == xs;
    } else {
      var zs := ys[..|ys| - 1];
      assert (xs + ys)[..|xs + ys| - 1] == xs + zs;
      LegalSplit(s, xs, zs);
    }
  }

  lemma LegalPair(s: Session, d: Event, e: Event)
    requires Enabled(s, d) && Enabled(Step(s, d), e)
    ensures Legal(s, [d, e]) && After(s, [d, e]) == Step(Step(s, d), e)
  {
    hide Step;
    LegalSnoc(s, [], d);
    assert [] + [d] == [d];
    LegalSnoc(s, [d], e);
    assert [d] + [e] == [d, e];
  }
}

// Class SessionManager of session_manager.cpp: the fields it updates, and its methods, each proved to take
// the state to what the function of the same name in module Session or Transmitter says.
module SessionManager {
  import opened Smpp
  import opened SequenceNumbers
  import opened TransmitQueue
  import T = Transmitter
  import S = Session

  class SessionManager {
    const cfg: S.Config
    const txQ: TransmitQ
    const seqNumGen: SequenceNumberGenerator
    var currentState: S.SessionState
    var stopFlag: bool
    var reconnectFlag: bool
    var rxQ: seq<Pdu>
    var w4rQ: map<nat, T.Stamped>
    var throttleNextSendTime: nat
    var timeBetweenSends: nat
    var enquireLinkTimer: Option<nat>
    var enquireLinkResponseTimer: Option<nat>
    var w4rQAgeingTimer: Option<nat>
    var clock: nat

    // What the event loop and the network still owe the engine, and what has happened so far. Of these two records
    // the components that are fields of the engine itself are kept above.
    ghost var pending: S.Control
    ghost var sending: T.Transmitter
    ghost var received: seq<S.Received>

    ghost function Ctl(): S.Control
      reads this
    {
      pending.(state := currentState, stop := stopFlag, reconnect := reconnectFlag)
    }

    ghost function Tx(): T.Transmitter
      reads this, txQ, seqNumGen
    {
      sending.(interval := timeBetweenSends, txQ := txQ.Value(), w4rQ := w4rQ, nextNum := seqNumGen.mVal,
               throttleNext := throttleNextSendTime, now := clock)
    }

    ghost function State(): S.Session
      reads this, txQ, seqNumGen
    {
      S.Session(cfg, Ctl(), Tx(), enquireLinkTimer, enquireLinkResponseTimer, w4rQAgeingTimer, rxQ, received)
    }

    constructor (config: S.Config, stored: TxQ, time: nat)
      ensures fresh(txQ) && fresh(seqNumGen)
      ensures State() == S.Init(config, stored.message, time)
    {
      cfg := config;
      currentState, stopFlag, reconnectFlag := S.CLOSED, false, false;
      rxQ, w4rQ := [], map[];
      enquireLinkTimer, enquireLinkResponseTimer, w4rQAgeingTimer := None, None, None;
      clock, throttleNextSendTime := time, time;
      timeBetweenSends := T.SECOND / config.txLimit;
      pending, sending, received := S.Control(S.CLOSED, false, false, 0, 0, 0, 0, 0, 0, 0), T.Start(0, [], 0), [];
      seqNumGen := new SequenceNumberGenerator();
      txQ := new TransmitQ(stored);
      new;
      SetW4rqAgeingTimer();
      Connect();
    }

    method Connect()
      modifies this`pending
      ensures State() == old(State()).(ctl := old(Ctl()).Connect())
    {
      pending := pending.Connect();
    }

    // Posts close_connection to the event loop.
    method PostClose()
      modifies this`pending
      ensures State() == old(State()).(ctl := old(Ctl()).PostClose())
    {
      pending := pending.PostClose();
    }

    method SetW4rqAgeingTimer()
      modifies this`w4rQAgeingTimer
      ensures State() == old(State()).(age := Some(clock + cfg.linkPeriod * T.SECOND))
    {
      w4rQAgeingTimer := Some(clock + cfg.linkPeriod * T.SECOND);
    }

    method CloseSession(reconnect: bool)
      modifies this, txQ, seqNumGen
      ensures State() == S.CloseSession(old(State()), reconnect)
    {
      reconnectFlag := reconnect;
      if currentState.Bound() || currentState == S.OUTBOUND {
        DoUnbindRequest();
      }
      PostClose();
    }

    method Stop()
      modifies this, txQ, seqNumGen
      ensures State() == S.Stop(old(State()))
    {
      stopFlag := true;
      CloseSession(false);
    }

    method EnterClosed()
      requires pending.closes > 0
      modifies this`pending, this`currentState
      ensures State() == old(State()).(ctl := old(Ctl()).Closed())
    {
      pending := pending.Closed();
      currentState := S.CLOSED;
    }

    method CancelTimers()
      modifies this`enquireLinkTimer, this`enquireLinkResponseTimer, this`w4rQAgeingTimer
      ensures State() == old(State()).(link := None, resp := None, age := None)
    {
      enquireLinkTimer, enquireLinkResponseTimer, w4rQAgeingTimer := None, None, None;
    }

    // Drops what belongs to the session and closes the socket.
    method CloseSocket()
      modifies this`sending, txQ
      ensures State() == old(State()).(tx := old(Tx()).Closed())
    {
      txQ.ClearSessionQueues();
      sending := sending.Closed();
    }

    method CloseConnection()
      requires pending.closes > 0
      modifies this, txQ
      ensures State() == S.CloseConnection(old(State()))
    {
      EnterClosed();
      CancelTimers();
      CloseSocket();
      if !stopFlag && reconnectFlag {
        reconnectFlag := false;
        clock := clock + T.SECOND;
        Connect();
      }
    }

    method EnterOpen()
      modifies this`sending, this`currentState
      ensures State() == old(State()).(ctl := old(Ctl()).(state := S.OPEN), tx := old(Tx()).Opened())
    {
      sending := sending.Opened();
      currentState := S.OPEN;
    }

    // Starts the read of the next header.
    method ReadNext()
      modifies this`pending
      ensures State() == old(State()).(ctl := old(Ctl()).(headers := old(Ctl()).headers + 1))
    {
      pending := pending.(headers := pending.headers + 1);
    }

    method HandleConnect(error: bool)
      requires pending.connects > 0
      modifies this, txQ, seqNumGen
      ensures State() == S.HandleConnect(old(State()), !error)
    {
      hide S.DoBindRequest, T.Transmitter.DoWriteNumbered;
      pending := pending.(connects := pending.connects - 1);
      if !error {
        EnterOpen();
        DoBindRequest();
        ReadNext();
      } else if !stopFlag {
        clock := clock + 5 * T.SECOND;
        Connect();
      }
    }

    method HandleReadHeader()
      requires pending.headers > 0
      modifies this`pending
      ensures State() == S.HandleHeaderOk(old(State()))
    {
      pending := pending.(headers := pending.headers - 1, bodies := pending.bodies + 1);
    }

    method HandleReadBody(p: Pdu, decodes: bool)
      requires pending.bodies > 0
      modifies this, txQ, seqNumGen
      ensures State() == S.HandleBodyOk(old(State()), p, decodes)
    {
      hide S.Process4State;
      pending := pending.(bodies := pending.bodies - 1);
      received := received + [S.Received(p, currentState, decodes)];
      W4rqPop(p);
      Process4State(p, decodes);
      ReadNext();
    }

    // What the handlers do when the connection is lost.
    method AskForReconnect()
      modifies this`currentState, this`reconnectFlag, this`pending
      ensures State() == old(State()).(ctl := old(Ctl()).(state := S.CLOSED, reconnect := true).PostClose())
    {
      currentState := S.CLOSED;
      reconnectFlag := true;
      PostClose();
    }

    // The error branches of the two read handlers are the same.
    method HandleReadError(failing: S.Failing, eof: bool)
      requires S.Outstanding(pending, failing)
      modifies this, txQ, seqNumGen
      ensures State() == S.HandleReadError(old(State()), failing, eof)
    {
      hide S.CloseSession;
      pending := S.ReadFailed(pending, failing);
      if !stopFlag {
        if eof {
          AskForReconnect();
        } else {
          CloseSession(true);
        }
      }
    }

    method HandleWrite(ghost i: nat)
      requires i < |sending.writes|
      modifies this, txQ, seqNumGen
      ensures State() == S.HandleWriteOk(old(State()), i)
    {
      sending := sending.WriteDone(i);
      if txQ.lastPop.Some? {
        W4rqPut(txQ.lastPop.value.pdu);
      }
      if CanSend() && !txQ.Value().Empty() {
        WritePdu();
      }
    }

    method HandleWriteError(ghost stale: bool, ghost i: nat)
      requires sending.CanFail(stale, i)
      modifies this, txQ
      ensures State() == S.HandleWriteError(old(State()), stale, i)
    {
      sending := sending.WriteFailed(stale, i, txQ.lastPop);
      txQ.PushBackLastPop();
      if !stopFlag {
        AskForReconnect();
      }
    }

    predicate CanSend()
      reads this
    {
      |w4rQ| < T.MAX_AWAITING && currentState.Bound()
    }

    method ThrottleCheck()
      modifies this`clock, this`throttleNextSendTime
      ensures State() == old(State()).(tx := old(Tx()).ThrottleCheck())
    {
      var now := clock;
      if now < throttleNextSendTime {
        clock := throttleNextSendTime;  // asleep
      }
      throttleNextSendTime := now + timeBetweenSends;
    }

    method NextNumber() returns (n: nat)
      modifies seqNumGen, this`sending
      ensures n == old(seqNumGen.mVal) && State() == old(State()).(tx := old(Tx()).DrawNumber())
    {
      n := seqNumGen.Next();
      sending := sending.(draws := sending.draws + 1);
    }

    // Takes the next PDU off the queue and numbers it if it has no number yet.
    method NextPdu() returns (p: Pdu, ghost level: Level)
      requires !txQ.Value().Empty()
      modifies this, txQ, seqNumGen
      ensures var t := old(txQ.Value()).Front(); p == t.pdu.(num := old(Tx()).NumberFor(t.pdu)) && level == t.level
      ensures var t := old(txQ.Value()).Front();
              var s1 := old(Tx()).(txQ := old(txQ.Value()).PopAs(p.num));
              State() == old(State()).(tx := if t.pdu.num <= SEQ_MIN then s1.DrawNumber() else s1)
    {
      var t := txQ.Pop();
      p, level := t.pdu, t.level;
      if p.num <= SEQ_MIN {
        var n := NextNumber();
        p := p.(num := n);
        txQ.NumberLastPop(n);
      }
    }

    method WritePdu()
      requires !txQ.Value().Empty()
      modifies this, txQ, seqNumGen
      ensures State() == old(State()).(tx := old(Tx()).WritePdu())
    {
      ghost var read := clock;
      ghost var level;
      var p;
      p, level := NextPdu();
      ThrottleCheck();
      sending := sending.AsyncWrite(T.Sent(p, level, read, clock));
    }

    method DoWrite(p: Pdu, priority: Level)
      modifies this, txQ, seqNumGen
      ensures State() == S.DoWrite(old(State()), p, priority)
    {
      var writeInProgress := !txQ.Value().Empty();
      txQ.Push(p, priority);
      sending := sending.(accepted := sending.accepted + [Tagged(p, priority)]);
      if !writeInProgress {
        WritePdu();
      }
    }

    method DoBindRequest()
      modifies this, txQ, seqNumGen
      ensures State() == S.DoBindRequest(old(State()))
    {
      var n := NextNumber();
      DoWrite(Pdu(S.BindRequestId(cfg.bindType), ESME_ROK, n, cfg.credentials), SESSION);
    }

    method DoUnbindRequest()
      modifies this, txQ, seqNumGen
      ensures State() == S.DoUnbindRequest(old(State()))
    {
      DoWrite(Pdu(UNBIND, ESME_ROK, 0, []), SESSION);
    }

    method SendPdu(p: Pdu)
      modifies this, txQ, seqNumGen
      ensures State() == S.SendPdu(old(State()), p)
    {
      match currentState
      case BOUND_TX => if S.SentWhenBoundTx(p.id) { DoWrite(p, MESSAGE); }
      case BOUND_RX => if S.SentWhenBoundRx(p.id) { DoWrite(p, MESSAGE); }
      case BOUND_TRX => if S.SentWhenBoundTx(p.id) || S.SentWhenBoundRx(p.id) { DoWrite(p, MESSAGE); }
      case _ =>
    }

    method Process4State(p: Pdu, decodes: bool)
      modifies this, txQ, seqNumGen
      ensures State() == S.Process4State(old(State()), p, decodes)
    {
      RescheduleEnquireLink();
      if !decodes && S.Decoded(currentState, p) {
        CloseSession(true);
      } else {
        match currentState
        case OPEN => Process4StateOpen(p);
        case BOUND_TX => Process4StateBoundTx(p);
        case BOUND_RX => Process4StateBoundRx(p);
        case BOUND_TRX => Process4StateBoundRx(p);
        case OUTBOUND => Process4StateOutbound(p);
        case UNBOUND => Process4StateUnbound(p);
        case CLOSED =>
      }
    }

    method Process4StateOutbound(p: Pdu)
      modifies this, txQ, seqNumGen
      ensures State() == S.Process4StateOutbound(old(State()), p)
    {
      if p.id == BIND_RECEIVER_RESP {
        ProcBindResp(p, S.BOUND_RX);
      } else if p.id == BIND_TRANSMITTER_RESP {
        ProcBindResp(p, S.BOUND_TX);
      } else if p.id == BIND_TRANSCEIVER_RESP {
        ProcBindResp(p, S.BOUND_TRX);
      } else {
        Process4StateUnbound(p);
      }
    }

    method Process4StateOpen(p: Pdu)
      modifies this, txQ, seqNumGen
      ensures State() == S.Process4StateOpen(old(State()), p)
    {
      if p.id == OUTBIND {
        DoBindRequest();
      } else {
        Process4StateOutbound(p);
      }
    }

    method Process4StateBoundTx(p: Pdu)
      modifies this, txQ, seqNumGen
      ensures State() == S.Process4StateBoundTx(old(State()), p)
    {
      if p.id == UNBIND {
        ProcUnbind(p);
      } else if p.id == UNBIND_RESP {
        ProcUnbindResp();
      } else {
        Process4StateUnbound(p);
      }
    }

    method Process4StateBoundRx(p: Pdu)
      modifies this, txQ, seqNumGen
      ensures State() == S.Process4StateBoundRx(old(State()), p)
    {
      if p.id == DELIVER_SM {
        ProcDeliverSm(p);
      } else {
        Process4StateBoundTx(p);
      }
    }

    method Process4StateUnbound(p: Pdu)
      modifies this, txQ, seqNumGen
      ensures State() == S.Process4StateUnbound(old(State()), p)
    {
      if p.id == ENQUIRE_LINK {
        DoWrite(ResponseTo(p), RESPONSE);
      } else if p.id == ENQUIRE_LINK_RESP {
        enquireLinkResponseTimer := None;
      }
    }

    method ProcBindResp(p: Pdu, success: S.SessionState)
      modifies this`currentState
      ensures State() == S.ProcBindResp(old(State()), p, success)
    {
      if p.status == ESME_ROK {
        currentState := success;
      }
    }

    method ProcDeliverSm(p: Pdu)
      modifies this, txQ, seqNumGen
      ensures State() == S.ProcDeliverSm(old(State()), p)
    {
      rxQ := rxQ + [p];
      DoWrite(ResponseTo(p), RESPONSE);
    }

    method ProcUnbind(p: Pdu)
      modifies this, txQ, seqNumGen
      ensures State() == S.ProcUnbind(old(State()), p)
    {
      hide S.DoWrite;
      currentState := S.UNBOUND;
      DoWrite(ResponseTo(p), RESPONSE);
      stopFlag := false;
      reconnectFlag := true;
      PostClose();
    }

    method ProcUnbindResp()
      modifies this, txQ, seqNumGen
      ensures State() == S.ProcUnbindResp(old(State()))
    {
      currentState := S.OPEN;
      CloseSession(false);
    }

    method RescheduleEnquireLink()
      modifies this`enquireLinkTimer, this`enquireLinkResponseTimer
      ensures State() == S.RescheduleEnquireLink(old(State()))
    {
      enquireLinkTimer := None;
      enquireLinkResponseTimer := None;
      enquireLinkTimer := Some(clock + cfg.linkPeriod * T.SECOND);
    }

    method DoEnquireLink(aborted: bool)
      modifies this, txQ, seqNumGen
      ensures State() == S.DoEnquireLink(old(State()), aborted)
    {
      hide T.Transmitter.DoWrite;
      if !aborted {
        enquireLinkTimer := None;
        var n := NextNumber();
        DoWrite(Pdu(ENQUIRE_LINK, ESME_ROK, n, []), SESSION);
        enquireLinkResponseTimer := Some(clock + cfg.linkTimeout * T.SECOND);
      }
    }

    method DoEnquireLinkFailure(aborted: bool)
      modifies this, txQ, seqNumGen
      ensures State() == S.DoEnquireLinkFailure(old(State()), aborted)
    {
      if !aborted {
        enquireLinkResponseTimer := None;
        if !stopFlag {
          reconnectFlag := true;
          CloseSession(false);
        }
      }
    }

    method W4rqPut(p: Pdu)
      modifies this`w4rQ
      ensures State() == old(State()).(tx := old(Tx()).W4rqPut(p))
    {
      if p.id < BIND_RECEIVER_RESP {
        w4rQ := w4rQ[p.num := T.Stamped(p, T.Seconds(clock))];
      }
    }

    method W4rqPop(p: Pdu)
      modifies this`w4rQ, this`sending
      ensures State() == old(State()).(tx := old(Tx()).W4rqPop(p))
    {
      if p.id > GENERIC_NACK {
        sending := sending.(acks := sending.acks + [T.Answered(p.num)]);
        w4rQ := w4rQ - {p.num};
      }
    }

    // The sweep over the map, by the keys it held when the timer expired.
    method W4rqAgeCleanup(aborted: bool)
      modifies this, txQ, seqNumGen
      ensures State() == S.W4rqAgeCleanup(old(State()), aborted)
    {
      if !aborted {
        w4rQAgeingTimer := None;
        if w4rQ != map[] {
          var keys := T.Ascending(w4rQ.Keys);
          ghost var end := Tx().Sweep(keys);
          ghost var start := State();
          var i := 0;
          while i < |keys|
            invariant i <= |keys|
            invariant Tx().Sweep(keys[i..]) == end && State() == start.(tx := Tx())
          {
            VisitAwaiting(keys[i]);
            i := i + 1;
          }
          SetW4rqAgeingTimer();
        }
      }
    }

    method VisitAwaiting(k: nat)
      modifies this, txQ, seqNumGen
      ensures State() == old(State()).(tx := old(Tx()).Visit(k))
    {
      if k in w4rQ && T.Seconds(clock) - w4rQ[k].stamp >= T.MAX_AGE {
        var p := w4rQ[k].pdu;
        // the number of the shared PDU once DoWrite is done with it
        var n := if txQ.Value().Empty() && p.num <= SEQ_MIN then seqNumGen.mVal else p.num;
        DoWrite(p, MESSAGE);
        w4rQ := w4rQ - {n};
        sending := sending.(acks := sending.acks + [T.Resent(n)]);
      }
    }

    // ---------------------------------------------------------------- the event loop

    // Whatever completes, expires or calls in next.
    method Handle(e: S.Event)
      requires S.Enabled(State(), e)
      modifies this, txQ, seqNumGen
      ensures State() == S.Step(old(State()), e)
    {
      hide S.HandleConnect, S.HandleBodyOk, S.HandleReadError, S.HandleWriteOk, S.HandleWriteError, S.CloseConnection;
      hide S.DoEnquireLink, S.DoEnquireLinkFailure, S.W4rqAgeCleanup, S.SendPdu, S.Stop;
      match e
      case Connected(ok) => HandleConnect(!ok);
      case HeaderOk => HandleReadHeader();
      case BodyOk(p, decodes) => HandleReadBody(p, decodes);
      case ReadError(failing, eof) => HandleReadError(failing, eof);
      case WriteOk(i) => HandleWrite(i);
      case WriteError(stale, j) => HandleWriteError(stale, j);
      case Close => CloseConnection();
      case LinkTimer(aborted) => DoEnquireLink(aborted);
      case RespTimer(aborted) => DoEnquireLinkFailure(aborted);
      case AgeTimer(aborted) => W4rqAgeCleanup(aborted);
      case Send(p) => SendPdu(p);
      case StopCall => Stop();
      case Tick(d) => clock := clock + d;
    }

    method Run(es: seq<S.Event>)
      requires S.Legal(State(), es)
      modifies this, txQ, seqNumGen
      ensures State() == S.After(old(State()), es)
    {
      hide S.Step;
      ghost var start := State();
      S.AtEnds(start, es);
      var i := 0;
      while i < |es|
        invariant i <= |es| && State() == S.At(start, es, i)
      {
        S.AtStep(start, es, i);
        Handle(es[i]);
        i := i + 1;
      }
    }
  }
}

// What the theorems about runs say about an object: a fresh engine that has handled any events in any order they can
// come in.
module Engine {
  import opened TransmitQueue
  import S = Session
  import SM = SessionManager
  import St = StateSafety
  import C = Cleanup
  import Th = Throttle
  import Aw = Awaiting
  import Ac = Accounting

  // What is true of an engine that has handled these events.
  ghost predicate AsPromised(engine: SM.SessionManager, cfg: S.Config, es: seq<S.Event>)
    reads engine, engine.txQ
  {
    // its state is a legal one, and a bound one, if the message centre answers in kind, is the one configured
    && engine.currentState != S.OUTBOUND
    && ((forall e | e in es :: St.AnswersInKind(cfg, e)) && engine.currentState.Bound() ==>
          engine.currentState == St.BoundStateOf(cfg.bindType))
    // closed and not stopped, it keeps nothing of the session
    && (engine.currentState == S.CLOSED && engine.pending.closes == 0 && !engine.stopFlag ==>
          && engine.txQ.session == [] && engine.txQ.response == []
          && engine.enquireLinkTimer.None? && engine.enquireLinkResponseTimer.None?)
    // it has kept to twice the configured rate
    && (forall from: nat :: |Th.Window(engine.sending.wire, from, cfg.txLimit * cfg.Interval())| <= 2 * cfg.txLimit)
    && (forall from: nat :: Th.KeepsRate(engine.sending.wire, cfg.txLimit, from))
    // it files requests only, each under its own number
    && (forall k | k in engine.w4rQ :: engine.w4rQ[k].pdu.num == k && engine.w4rQ[k].pdu.IsRequest())
    // and it has acknowledged exactly what it put in the receive queue
    && Ac.DeliverAcks(Ac.Responses(engine.sending.accepted)) == Ac.AllAnswered(engine.rxQ)
  }

  // The engine of a new process, started on the queue that was left on disk, after these events.
  method Operate(cfg: S.Config, stored: TxQ, time: nat, es: seq<S.Event>) returns (engine: SM.SessionManager)
    requires S.Legal(S.Init(cfg, stored.message, time), es)
    ensures fresh(engine) && engine.State() == S.After(S.Init(cfg, stored.message, time), es)
    ensures AsPromised(engine, cfg, es)
  {
    hide S.Step, S.After, S.Legal, Th.Window, Ac.DeliverAcks, Ac.Responses, Ac.AllAnswered;
    engine := new SM.SessionManager(cfg, stored, time);
    engine.Run(es);
    ghost var s := S.After(S.Init(cfg, stored.message, time), es);
    St.NeverOutbound(cfg, stored.message, time, es);
    if forall e | e in es :: St.AnswersInKind(cfg, e) {
      St.BoundAsConfigured(cfg, stored.message, time, es);
    }
    C.NothingLeaks(cfg, stored.message, time, es);
    forall from: nat ensures |Th.Window(s.tx.wire, from, cfg.txLimit * cfg.Interval())| <= 2 * cfg.txLimit {
      Th.AtMostTwiceTheLimit(cfg, stored.message, time, es, from);
    }
    forall from: nat ensures Th.KeepsRate(s.tx.wire, cfg.txLimit, from) {
      if cfg.txLimit <= 1_000_000 {
        Th.RatePerSecond(cfg, stored.message, time, es, from);
      }
    }
    Aw.FilesOnlyRequests(cfg, stored.message, time, es);
    Ac.AckedOnlyIfQueued(cfg, stored.message, time, es);
  }
}

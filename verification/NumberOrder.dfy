// In what order the numbers of requests go out.
module NumberOrder {
  import opened Smpp
  import opened SequenceNumbers
  import opened TransmitQueue
  import opened Transmitter
  import opened Session
  import opened Refinement
  import opened Numbering
  import opened Binding
  import Accounting
  import Chain

  // Of two requests on the wire the later has the higher number, unless it was resent.
  ghost predicate Rising(t: Transmitter) {
    forall i, j | 0 <= i < j < |t.wire| && t.wire[i].pdu.IsRequest() && t.wire[j].pdu.IsRequest() ::
      t.wire[i].pdu.num < t.wire[j].pdu.num || Resent(t.wire[j].pdu.num) in t.acks
  }

  // The next draw is above all that requests on the wire carry.
  ghost predicate DrawsAbove(t: Transmitter) {
    && t.nextNum == Nth(t.draws)
    && forall i | 0 <= i < |t.wire| && t.wire[i].pdu.IsRequest() :: t.wire[i].pdu.num < SEQ_MIN + t.draws
  }

  // The PDU in front of the queue is a request that was numbered before, not above all that were written since, and
  // not a resending.
  predicate OutOfOrder(t: Transmitter)
    requires !t.txQ.Empty()
  {
    var p := t.txQ.Front().pdu;
    && Numbered(p) && Resent(p.num) !in t.acks
    && exists i | 0 <= i < |t.wire| :: t.wire[i].pdu.IsRequest() && t.wire[i].pdu.num >= p.num
  }

  // A completion that goes on to write such a PDU.
  predicate Falls(t: Transmitter, i: nat, bound: bool)
    requires i < |t.writes|
  {
    |t.Filed(i).w4rQ| < MAX_AWAITING && bound && !t.txQ.Empty() && OutOfOrder(t)
  }

  // ---------------------------------------------------------------- actions

  lemma RisingAlike(t: Transmitter, u: Transmitter)
    requires Rising(t) && u.wire == t.wire && forall a | a in t.acks :: a in u.acks
    ensures Rising(u)
  {
  }

  lemma WriteRisesIff(t: Transmitter)
    requires !t.txQ.Empty() && DrawsAbove(t) && Rising(t) && Unwrapped(t.WritePdu())
    ensures Rising(t.WritePdu()) <==> !OutOfOrder(t)
  {
    var u, p := t.WritePdu(), t.txQ.Front().pdu;
    var last, w := |t.wire|, p.(num := t.NumberFor(p));
    assert u.wire == t.wire + [u.wire[last]] && u.wire[last].pdu == w && u.acks == t.acks;
    if p.num <= SEQ_MIN {
      DrawNext(t);
    }
    if OutOfOrder(t) {
      var i :| 0 <= i < |t.wire| && t.wire[i].pdu.IsRequest() && t.wire[i].pdu.num >= p.num;
      assert u.wire[i] == t.wire[i] && u.wire[last].pdu.IsRequest();
    } else {
      forall i, j | 0 <= i < j < |u.wire| && u.wire[i].pdu.IsRequest() && u.wire[j].pdu.IsRequest()
        ensures u.wire[i].pdu.num < u.wire[j].pdu.num || Resent(u.wire[j].pdu.num) in u.acks
      {
        assert u.wire[i] == t.wire[i];
        if j < last {
          assert u.wire[j] == t.wire[j];
        }
      }
    }
  }

  // Handing over a request without a number, or with one above all that was written.
  lemma HandOverRises(t: Transmitter, p: Pdu, level: Level)
    requires DrawsAbove(t) && Rising(t) && Unwrapped(t.DoWrite(p, level))
    requires Numbered(p) ==> forall i | 0 <= i < |t.wire| && t.wire[i].pdu.IsRequest() :: t.wire[i].pdu.num < p.num
    ensures Rising(t.DoWrite(p, level))
  {
    hide Transmitter.WritePdu;
    var q := t.Queued(p, level);
    RisingAlike(t, q);
    if t.txQ.Empty() {
      WriteRisesIff(q);
    }
  }

  lemma IssueRises(t: Transmitter, p: Pdu, level: Level)
    requires DrawsAbove(t) && Rising(t) && Unwrapped(t.DoWriteNumbered(p, level))
    ensures Rising(t.DoWriteNumbered(p, level))
  {
    hide Transmitter.DoWrite, Rising;
    var d := t.DrawNumber();
    DrawsGrow(d, p.(num := t.nextNum), level);
    DrawNext(t);
    RisingAlike(t, d);
    HandOverRises(d, p.(num := t.nextNum), level);
  }

  lemma DrawsGrow(t: Transmitter, p: Pdu, level: Level)
    ensures t.draws <= t.DoWrite(p, level).draws
  {
    HandOverFrame(t, p, level);
  }

  lemma VisitRises(t: Transmitter, k: nat)
    requires Rising(t) && t.Expired(k)
    ensures Rising(t.Visit(k))
  {
    var p, u := t.w4rQ[k].pdu, t.Visit(k);
    var m := if t.txQ.Empty() then t.NumberFor(p) else p.num;
    assert u.acks == t.acks + [Resent(m)];
    if t.txQ.Empty() {
      assert u.wire == t.wire + [u.wire[|t.wire|]] && u.wire[|t.wire|].pdu.num == m;
      forall i, j | 0 <= i < j < |u.wire| && u.wire[i].pdu.IsRequest() && u.wire[j].pdu.IsRequest()
        ensures u.wire[i].pdu.num < u.wire[j].pdu.num || Resent(u.wire[j].pdu.num) in u.acks
      {
        assert u.wire[i] == t.wire[i];
        if j < |t.wire| {
          assert u.wire[j] == t.wire[j];
        }
      }
    }
  }

  lemma CompletionRisesIff(t: Transmitter, i: nat, bound: bool)
    requires DrawsAbove(t) && Rising(t) && i < |t.writes| && Unwrapped(t.WriteOk(i, bound))
    ensures Rising(t.WriteOk(i, bound)) <==> !Falls(t, i, bound)
  {
    hide Rising, Transmitter.WritePdu;
    var f := t.Filed(i);
    assert f.acks == t.acks + [Completed(t.writes[i])];
    assert f.txQ == t.txQ && f.wire == t.wire && f.draws == t.draws && f.nextNum == t.nextNum;
    RisingAlike(t, f);
    if !t.txQ.Empty() {
      assert OutOfOrder(f) <==> OutOfOrder(t);
      if |f.w4rQ| < MAX_AWAITING && bound {
        WriteRisesIff(f);
      }
    }
  }

  lemma ActRises(t: Transmitter, a: Action)
    requires DrawsAbove(t) && Rising(t) && Doable(t, a) && !a.Complete? && Unnumbered(a) && Unwrapped(Act(t, a))
    ensures Rising(Act(t, a))
  {
    hide Rising, Transmitter.DoWrite, Transmitter.DoWriteNumbered, Transmitter.Visit, Transmitter.WriteError;
    match a
    case Accept(p, level) => HandOverRises(t, p, level);
    case Issue(p, level) => IssueRises(t, p, level);
    case Look(k) => if t.Expired(k) { VisitRises(t, k); } else { assert t.Visit(k) == t by { VisitSkips(t, k); } }
    case Fail(stale, j) => RisingAlike(t, t.WriteError(stale, j)) by { FailureWritesNothing(t, stale, j); }
    case Read(_) | Open | Shut | Pause(_) => RisingAlike(t, Act(t, a));
    case Complete(_, _) =>
  }

  lemma VisitSkips(t: Transmitter, k: nat)
    requires !t.Expired(k)
    ensures t.Visit(k) == t
  {
  }

  lemma FailureWritesNothing(t: Transmitter, stale: bool, j: nat)
    requires t.CanFail(stale, j)
    ensures t.WriteError(stale, j).wire == t.wire && t.WriteError(stale, j).acks == t.acks
  {
  }

  lemma NumbersAreBelow(t: Transmitter)
    requires Numbers(t) && Unwrapped(t)
    ensures DrawsAbove(t)
  {
    forall i | 0 <= i < |t.wire| && t.wire[i].pdu.IsRequest() ensures t.wire[i].pdu.num < SEQ_MIN + t.draws {
      WrittenAreNumbered(t, i);
    }
  }

  lemma {:induction false} ActionsRise(t: Transmitter, acts: seq<Action>)
    requires AllDoable(t, acts) && Numbers(t) && Rising(t) && Unwrapped(Perform(t, acts))
    requires forall a | a in acts :: !a.Complete? && Unnumbered(a) && (t.draws > 0 || Early(a))
    ensures Rising(Perform(t, acts))
  {
    hide Act, Doable, Rising, Numbers, Unnumbered, Early;
    if acts != [] {
      var before, a := acts[..|acts| - 1], acts[|acts| - 1];
      var u := Perform(t, before);
      ActionsNumber(t, before);
      ActNumbers(u, a);
      ActionsRise(t, before);
      NumbersAreBelow(u);
      ActRises(u, a);
    }
  }

  // ---------------------------------------------------------------- runs

  lemma EventRisesIff(s: Session, e: Event)
    requires Enabled(s, e) && Numbers(s.tx) && Started(s) && Submits(e) && Rising(s.tx) && Unwrapped(Step(s, e).tx)
    ensures Rising(Step(s, e).tx) <==> (e.WriteOk? ==> !Falls(s.tx, e.i, s.ctl.state.Bound()))
  {
    hide Numbers, Rising, Falls, DrawsAbove, Actions, Perform, Transmitter.WriteOk;
    EventNumbers(s, e);
    if e.WriteOk? {
      NumbersAreBelow(s.tx);
      CompletionRisesIff(s.tx, e.i, s.ctl.state.Bound());
    } else {
      hide Step;
      TransmissionRefines(s, e);
      OnlyWritesComplete(s, e);
      AcceptsUnnumbered(s, e);
      if s.tx.draws == 0 {
        StartsEarly(s, e);
      }
      ActionsRise(s.tx, Actions(s, e));
    }
  }

  lemma {:induction false} OrdinaryAt(cfg: Config, backlog: seq<Pdu>, t: nat, es: seq<Event>, k: nat)
    requires Legal(Init(cfg, backlog, t), es) && Ordinary(cfg, backlog, t, es) && k <= |es|
    ensures var s := At(Init(cfg, backlog, t), es, k); Numbers(s.tx) && Started(s) && Unwrapped(s.tx)
  {
    hide Step, Numbers, Started;
    var init := Init(cfg, backlog, t);
    if k == |es| {
      AtEnds(init, es);
      NumberStandsForOneRequest(cfg, backlog, t, es);
    } else {
      var before, last := es[..|es| - 1], es[|es| - 1];
      assert last in es && forall e | e in before :: e in es;
      NumberStandsForOneRequest(cfg, backlog, t, before);
      EventNumbers(After(init, before), last);
      OrdinaryAt(cfg, backlog, t, before, k);
      assert before[..k] == es[..k];
    }
  }

  predicate FallsAt(s: Session, es: seq<Event>, k: nat)
    requires Legal(s, es) && k < |es|
  {
    AtStep(s, es, k);
    es[k].WriteOk? && Falls(At(s, es, k).tx, es[k].i, At(s, es, k).ctl.state.Bound())
  }

  /** Within one cycle of numbers, with any backlog and any write errors, the numbers of the requests on the wire rise all
      through a run, but for resendings, exactly if no completion goes on to write a request that was numbered before
      and is not above all that were written since. All else that is written is in order. */
  lemma {:induction false} NumbersRiseIff(cfg: Config, backlog: seq<Pdu>, t: nat, es: seq<Event>)
    requires Legal(Init(cfg, backlog, t), es) && Ordinary(cfg, backlog, t, es)
    ensures var init := Init(cfg, backlog, t);
            (forall k | 0 <= k <= |es| :: Rising(At(init, es, k).tx)) <==>
            (forall k | 0 <= k < |es| :: !FallsAt(init, es, k))
  {
    hide Step, Rising, Falls, Numbers, Started, Ordinary;
    var init := Init(cfg, backlog, t);
    if forall k | 0 <= k <= |es| :: Rising(At(init, es, k).tx) {
      forall k | 0 <= k < |es| ensures !FallsAt(init, es, k) {
        StepRisesIff(cfg, backlog, t, es, k);
        assert Rising(At(init, es, k).tx) && Rising(At(init, es, k + 1).tx);
      }
    }
    if forall k | 0 <= k < |es| :: !FallsAt(init, es, k) {
      forall k | 0 <= k <= |es| ensures Rising(At(init, es, k).tx) {
        RisesUpTo(cfg, backlog, t, es, k);
      }
    }
  }

  lemma StepRisesIff(cfg: Config, backlog: seq<Pdu>, t: nat, es: seq<Event>, k: nat)
    requires Legal(Init(cfg, backlog, t), es) && Ordinary(cfg, backlog, t, es) && k < |es|
    requires Rising(At(Init(cfg, backlog, t), es, k).tx)
    ensures var init := Init(cfg, backlog, t); Rising(At(init, es, k + 1).tx) <==> !FallsAt(init, es, k)
  {
    hide Step, Rising, Falls, Numbers, Started;
    var init := Init(cfg, backlog, t);
    AtStep(init, es, k);
    OrdinaryAt(cfg, backlog, t, es, k);
    OrdinaryAt(cfg, backlog, t, es, k + 1);
    assert es[k] in es;
    EventRisesIff(At(init, es, k), es[k]);
  }

  lemma {:induction false} RisesUpTo(cfg: Config, backlog: seq<Pdu>, t: nat, es: seq<Event>, k: nat)
    requires Legal(Init(cfg, backlog, t), es) && Ordinary(cfg, backlog, t, es) && k <= |es|
    requires forall j | 0 <= j < |es| :: !FallsAt(Init(cfg, backlog, t), es, j)
    ensures Rising(At(Init(cfg, backlog, t), es, k).tx)
  {
    hide Step, Rising, FallsAt, Ordinary;
    if k == 0 {
      AtEnds(Init(cfg, backlog, t), es);
      NothingWritten(cfg, backlog, t);
    } else {
      RisesUpTo(cfg, backlog, t, es, k - 1);
      StepRisesIff(cfg, backlog, t, es, k - 1);
    }
  }

  lemma NothingWritten(cfg: Config, backlog: seq<Pdu>, t: nat)
    ensures Rising(Init(cfg, backlog, t).tx)
  {
  }

  /** In particular they rise from an empty queue as long as no write fails: then nothing is ever queued. */
  lemma {:induction false} NumbersRise(cfg: Config, t: nat, es: seq<Event>)
    requires Legal(Init(cfg, [], t), es)
    requires forall e | e in es :: !e.WriteError? && Submits(e)
    ensures var u := After(Init(cfg, [], t), es).tx; Unwrapped(u) ==> Rising(u)
  {
    hide Step, Rising, FallsAt, Accounting.WrittenAs;
    var init := Init(cfg, [], t);
    if Unwrapped(After(init, es).tx) {
      forall k | 0 <= k < |es| ensures !FallsAt(init, es, k) {
        LegalPrefix(init, es, k);
        assert forall e | e in es[..k] :: e in es;
        Accounting.EachAcceptedWrittenOnce(cfg, t, es[..k]);
        EmptyNeverFalls(init, es, k);
      }
      NumbersRiseIff(cfg, [], t, es);
      AtEnds(init, es);
    }
  }

  lemma EmptyNeverFalls(s: Session, es: seq<Event>, k: nat)
    requires Legal(s, es) && k < |es| && At(s, es, k).tx.txQ.Empty()
    ensures !FallsAt(s, es, k)
  {
  }

  // ---------------------------------------------------------------- numbers that fall

  // A stopped session still bound has its write fail, tests its link, and has two writes complete.
  function FallingRun(s: Session, p: Pdu): seq<Event>
    requires s.link.Some?
  {
    [StopCall, Send(p)] + [WriteError(false, 1), Tick(s.link.value)] + ([LinkTimer(false), WriteOk(0)] + [WriteOk(0)])
  }

  /** Otherwise they can fall: a request whose write failed is queued under its number behind a link test that is numbered
      later, and goes out after it. Binding.GetsReady leads to such a session. */
  lemma NumbersCanFall(s: Session, p: Pdu)
    requires Ready(s) && Sendable(s.ctl.state, p.id) && p.IsRequest() && p.num == 0
    ensures Legal(s, FallingRun(s, p)) && !Rising(After(s, FallingRun(s, p)).tx)
  {
    hide Step, Sendable, Rising;
    assert Nth(1) == Succ(Nth(0)) && Nth(2) == Succ(Nth(1));
    var n := SEQ_MIN + 2;
    StopWritesUnbind(s);
    var s1 := Step(s, StopCall);
    SendGoesOut(s1, p);
    var s2 := Step(s1, Send(p));
    var w := Tagged(p.(num := n + 1), MESSAGE);
    LegalPair(s, StopCall, Send(p));
    StoppedFailure(s2, w);
    var s3 := Step(s2, WriteError(false, 1));
    TimePasses(s3, s.link.value);
    var s4 := Step(s3, Tick(s.link.value));
    LegalPair(s2, WriteError(false, 1), Tick(s.link.value));
    TestQueues(s4, n + 2);
    var s5 := Step(s4, LinkTimer(false));
    var l := Tagged(LINK_TEST.(num := n + 2), SESSION);
    CompletesTwice(s5, l, w);
    var s6 := Step(s5, WriteOk(0));
    LegalPair(s4, LinkTimer(false), WriteOk(0));
    LegalSnoc(s4, [LinkTimer(false), WriteOk(0)], WriteOk(0));
    LegalAppend(s, [StopCall, Send(p)], [WriteError(false, 1), Tick(s.link.value)]);
    LegalAppend(s, [StopCall, Send(p)] + [WriteError(false, 1), Tick(s.link.value)], [LinkTimer(false), WriteOk(0)] + [WriteOk(0)]);
    Fell(Step(s6, WriteOk(0)).tx);
  }

  lemma Fell(t: Transmitter)
    requires |t.wire| >= 2 && t.wire[|t.wire| - 1].pdu.IsRequest() && t.wire[|t.wire| - 2].pdu.IsRequest()
    requires t.wire[|t.wire| - 1].pdu.num <= t.wire[|t.wire| - 2].pdu.num && forall n :: Resent(n) !in t.acks
    ensures !Rising(t)
  {
  }

  lemma StopWritesUnbind(s: Session)
    requires Ready(s)
    ensures var u, w := Step(s, StopCall), Tagged(UNBIND_REQUEST.(num := s.tx.nextNum), SESSION);
            && u.ctl.stop && u.ctl.state == s.ctl.state && u.link == s.link && u.tx.open
            && u.tx.txQ == TxQ([], [], [], Some(w)) && u.tx.writes == [w] && u.tx.staleWrites == [] && u.tx.w4rQ == map[]
            && u.tx.nextNum == Succ(s.tx.nextNum) && u.tx.acks == s.tx.acks
  {
  }

  lemma StoppedFailure(s: Session, w: Tagged)
    requires s.ctl.stop && |s.tx.writes| == 2 && s.tx.txQ == TxQ([], [], [], Some(w)) && w.level == MESSAGE
    ensures Enabled(s, WriteError(false, 1)) && var u := Step(s, WriteError(false, 1));
            && u.ctl == s.ctl && u.link == s.link && u.tx.txQ == TxQ([], [], [w.pdu], Some(w)) && |u.tx.writes| == 1
            && u.tx.open == s.tx.open && u.tx.w4rQ == s.tx.w4rQ && u.tx.nextNum == s.tx.nextNum && u.tx.acks == s.tx.acks
  {
  }

  lemma TestQueues(s: Session, n: nat)
    requires s.link.Some? && s.link.value <= s.tx.now && !s.tx.txQ.Empty() && s.tx.nextNum == n
    ensures Enabled(s, LinkTimer(false)) && var u := Step(s, LinkTimer(false));
            && u.ctl == s.ctl && u.tx.txQ == s.tx.txQ.Push(LINK_TEST.(num := n), SESSION)
            && u.tx.writes == s.tx.writes && u.tx.open == s.tx.open && u.tx.w4rQ == s.tx.w4rQ && u.tx.acks == s.tx.acks
  {
  }

  lemma CompletesTwice(s: Session, l: Tagged, w: Tagged)
    requires s.ctl.state.Bound() && s.tx.open && |s.tx.writes| == 1 && s.tx.w4rQ == map[]
    requires l.level == SESSION && w.level == MESSAGE && l.pdu.num > w.pdu.num > SEQ_MIN && l.pdu.IsRequest() && w.pdu.IsRequest()
    requires s.tx.txQ == TxQ([l.pdu], [], [w.pdu], Some(w)) && forall n :: Resent(n) !in s.tx.acks
    ensures Enabled(s, WriteOk(0)) && Enabled(Step(s, WriteOk(0)), WriteOk(0))
    ensures var t := Step(Step(s, WriteOk(0)), WriteOk(0)).tx;
            && |t.wire| == |s.tx.wire| + 2 && t.wire[|s.tx.wire|].pdu == l.pdu && t.wire[|s.tx.wire| + 1].pdu == w.pdu
            && forall n :: Resent(n) !in t.acks
  {
    hide Step;
    CompletesInto(s, l);
    CompletesInto(Step(s, WriteOk(0)), w);
    var u := Step(s, WriteOk(0)).tx;
    var t := Step(Step(s, WriteOk(0)), WriteOk(0)).tx;
    assert t.wire[|s.tx.wire|] == t.wire[..|u.wire|][|s.tx.wire|];
  }

  // A completion that goes on to write x.
  lemma CompletesInto(s: Session, x: Tagged)
    requires s.ctl.state.Bound() && s.tx.open && |s.tx.writes| == 1 && |s.tx.w4rQ| + 1 < MAX_AWAITING
    requires !s.tx.txQ.Empty() && s.tx.txQ.Front() == x && x.pdu.num > SEQ_MIN
    ensures Enabled(s, WriteOk(0)) && var u := Step(s, WriteOk(0));
            && u.ctl == s.ctl && u.tx.open && |u.tx.writes| == 1 && |u.tx.w4rQ| <= |s.tx.w4rQ| + 1
            && u.tx.txQ == s.tx.txQ.PopAs(x.pdu.num)
            && |u.tx.wire| == |s.tx.wire| + 1 && u.tx.wire[..|s.tx.wire|] == s.tx.wire && u.tx.wire[|s.tx.wire|].pdu == x.pdu
            && forall n :: Resent(n) in u.tx.acks ==> Resent(n) in s.tx.acks
  {
    Chain.FilingEffect(s.tx);
  }
}

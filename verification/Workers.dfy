// The two worker loops that move PDUs between the session and its users (ksmppc.cpp).
module Workers {
  import opened Smpp
  import opened TransmitQueue
  import S = Session
  import SM = SessionManager
  import A = Accounting
  import T = Transmitter
  import R = Refinement
  import Ageing

  // ---------------------------------------------------------------- delivery, as a machine

  // How handing a message to the local application ends.
  datatype Outcome = Success | RetryableFailure | PermanentFailure

  // Where the messages pushed by the session are.
  datatype Delivery = Delivery(buffer: seq<Pdu>, inHand: Option<Pdu>, errors: seq<Pdu>, delivered: seq<Pdu>)

  datatype Move = Push(pdu: Pdu) | Take | Finish(outcome: Outcome)

  predicate CanMove(d: Delivery, m: Move) {
    match m
    case Push(_) => true
    case Take => d.inHand.None? && d.buffer != []
    case Finish(_) => d.inHand.Some?
  }

  function MoveOn(d: Delivery, m: Move): Delivery
    requires CanMove(d, m)
  {
    match m
    case Push(p) => d.(buffer := d.buffer + [p])
    case Take => d.(buffer := d.buffer[1..], inHand := Some(d.buffer[0]))
    case Finish(Success) => d.(inHand := None, delivered := d.delivered + [d.inHand.value])
    case Finish(RetryableFailure) => d.(inHand := None, buffer := d.buffer + [d.inHand.value])
    case Finish(PermanentFailure) => d.(inHand := None, errors := d.errors + [d.inHand.value])
  }

  predicate LegalMoves(d: Delivery, ms: seq<Move>)
    decreases |ms|
  {
    ms == [] || (CanMove(d, ms[0]) && LegalMoves(MoveOn(d, ms[0]), ms[1..]))
  }

  function MovedOn(d: Delivery, ms: seq<Move>): Delivery
    requires LegalMoves(d, ms)
    decreases |ms|
  {
    if ms == [] then d else MovedOn(MoveOn(d, ms[0]), ms[1..])
  }

  function Pushed(ms: seq<Move>): seq<Pdu> {
    if ms == [] then [] else (if ms[0].Push? then [ms[0].pdu] else []) + Pushed(ms[1..])
  }

  // All the messages in the machine, with how often each is there.
  function Everywhere(d: Delivery): multiset<Pdu> {
    multiset(d.buffer) + (if d.inHand.Some? then multiset{d.inHand.value} else multiset{}) + multiset(d.errors) + multiset(d.delivered)
  }

  lemma MoveConserves(d: Delivery, m: Move)
    requires CanMove(d, m)
    ensures Everywhere(MoveOn(d, m)) == Everywhere(d) + (if m.Push? then multiset{m.pdu} else multiset{})
  {
    match m
    case Push(p) => OneMore(d.buffer, p);
    case Take => TakeConserves(d);
    case Finish(outcome) => FinishConserves(d, outcome);
  }

  lemma OneMore(ps: seq<Pdu>, p: Pdu)
    ensures multiset(ps + [p]) == multiset(ps) + multiset{p}
  {
  }

  lemma TakeConserves(d: Delivery)
    requires CanMove(d, Take)
    ensures Everywhere(MoveOn(d, Take)) == Everywhere(d)
  {
    assert d.buffer == [d.buffer[0]] + d.buffer[1..];
    assert multiset(d.buffer) == multiset{d.buffer[0]} + multiset(d.buffer[1..]);
  }

  lemma FinishConserves(d: Delivery, outcome: Outcome)
    requires CanMove(d, Finish(outcome))
    ensures Everywhere(MoveOn(d, Finish(outcome))) == Everywhere(d)
  {
    match outcome
    case Success => OneMore(d.delivered, d.inHand.value);
    case RetryableFailure => OneMore(d.buffer, d.inHand.value);
    case PermanentFailure => OneMore(d.errors, d.inHand.value);
  }

  /** However pushes, takes and the ends of deliveries interleave, each message is in the buffer, in hand, in the error
      buffer or delivered as often, all told, as it was there or pushed: none is lost and none is doubled. */
  lemma {:induction false} MessagesAreSomewhere(d: Delivery, ms: seq<Move>)
    requires LegalMoves(d, ms)
    ensures Everywhere(MovedOn(d, ms)) == Everywhere(d) + multiset(Pushed(ms))
    decreases |ms|
  {
    if ms != [] {
      MoveConserves(d, ms[0]);
      MessagesAreSomewhere(MoveOn(d, ms[0]), ms[1..]);
    }
  }

  // The messages whose delivery ended so, in turn.
  function Ended(d: Delivery, ms: seq<Move>, outcome: Outcome): seq<Pdu>
    requires LegalMoves(d, ms)
    decreases |ms|
  {
    if ms == [] then []
    else (if ms[0] == Finish(outcome) then [d.inHand.value] else []) + Ended(MoveOn(d, ms[0]), ms[1..], outcome)
  }

  // What is put into the receive buffer: what the session pushes, and what a retryable failure puts back, in turn.
  function PutIn(d: Delivery, ms: seq<Move>): seq<Pdu>
    requires LegalMoves(d, ms)
    decreases |ms|
  {
    if ms == [] then []
    else
      (match ms[0] case Push(p) => [p] case Finish(RetryableFailure) => [d.inHand.value] case _ => [])
      + PutIn(MoveOn(d, ms[0]), ms[1..])
  }

  function Takes(ms: seq<Move>): nat {
    if ms == [] then 0 else (if ms[0] == Take then 1 else 0) + Takes(ms[1..])
  }

  lemma {:induction false} DeliveriesEnd(d: Delivery, ms: seq<Move>)
    requires LegalMoves(d, ms)
    ensures var u := MovedOn(d, ms);
            u.errors == d.errors + Ended(d, ms, PermanentFailure) && u.delivered == d.delivered + Ended(d, ms, Success)
    decreases |ms|
  {
    hide MoveOn;
    if ms == [] {
      assert d.errors + [] == d.errors && d.delivered + [] == d.delivered;
    } else {
      DeliveriesEnd(MoveOn(d, ms[0]), ms[1..]);
      GoesByOutcome(d, ms[0]);
    }
  }

  lemma {:induction false} BufferInTurn(d: Delivery, ms: seq<Move>)
    requires LegalMoves(d, ms)
    ensures Takes(ms) <= |d.buffer + PutIn(d, ms)|
    ensures MovedOn(d, ms).buffer == (d.buffer + PutIn(d, ms))[Takes(ms)..]
    decreases |ms|
  {
    hide MoveOn;
    if ms == [] {
      assert d.buffer + [] == d.buffer;
    } else {
      var e, rest := MoveOn(d, ms[0]), ms[1..];
      BufferInTurn(e, rest);
      GoesByOutcome(d, ms[0]);
      var put := match ms[0] case Push(p) => [p] case Finish(RetryableFailure) => [d.inHand.value] case _ => [];
      TakesInTurn(d.buffer, put, PutIn(e, rest), Takes(rest), ms[0] == Take);
    }
  }

  /** Under any interleaving the error buffer grows by the messages whose delivery failed for good, what was delivered by
      those whose delivery succeeded, and the receive buffer by those pushed and those whose failure can be retried,
      which wait behind; it is taken from in front. */
  lemma {:induction false} MessagesGoByOutcome(d: Delivery, ms: seq<Move>)
    requires LegalMoves(d, ms)
    ensures var u := MovedOn(d, ms);
            && u.errors == d.errors + Ended(d, ms, PermanentFailure)
            && u.delivered == d.delivered + Ended(d, ms, Success)
            && Takes(ms) <= |d.buffer + PutIn(d, ms)| && u.buffer == (d.buffer + PutIn(d, ms))[Takes(ms)..]
  {
    DeliveriesEnd(d, ms);
    BufferInTurn(d, ms);
  }

  lemma TakesInTurn(buffer: seq<Pdu>, put: seq<Pdu>, later: seq<Pdu>, takes: nat, take: bool)
    requires take ==> buffer != [] && put == []
    requires takes <= |(if take then buffer[1..] else buffer + put) + later|
    ensures var n := takes + (if take then 1 else 0);
            && n <= |buffer + (put + later)|
            && ((if take then buffer[1..] else buffer + put) + later)[takes..] == (buffer + (put + later))[n..]
  {
    assert buffer + (put + later) == buffer + put + later;
    if take {
      assert buffer + put + later == [buffer[0]] + (buffer[1..] + later);
    }
  }

  lemma GoesByOutcome(d: Delivery, m: Move)
    requires CanMove(d, m)
    ensures var e := MoveOn(d, m);
            && e.errors == d.errors + (if m == Finish(PermanentFailure) then [d.inHand.value] else [])
            && e.delivered == d.delivered + (if m == Finish(Success) then [d.inHand.value] else [])
            && (if m == Take then e.buffer == d.buffer[1..] && e.inHand == Some(d.buffer[0])
                else e.buffer == d.buffer + match m case Push(p) => [p] case Finish(RetryableFailure) => [d.inHand.value] case _ => [])
  {
    assert d.buffer + [] == d.buffer && d.errors + [] == d.errors && d.delivered + [] == d.delivered;
  }

  predicate Holds(d: Delivery, p: Pdu) {
    p in d.buffer || d.inHand == Some(p) || p in d.errors || p in d.delivered
  }

  const EMPTY: Delivery := Delivery([], None, [], [])

  /** No acknowledged message is lost. Take any run of the session, and any interleaving of the worker with the pushes
      of that run: the acknowledgements the session has accepted for sending are those of the messages pushed, in turn, and
      the worker has each of these messages in one place, as often as it was pushed, and no other. */
  lemma {:induction false} AcknowledgedIsSomewhere(cfg: S.Config, backlog: seq<Pdu>, t: nat, es: seq<S.Event>, ms: seq<Move>)
    requires S.Legal(S.Init(cfg, backlog, t), es) && LegalMoves(EMPTY, ms)
    requires Pushed(ms) == S.After(S.Init(cfg, backlog, t), es).rxQ
    ensures var u, d := S.After(S.Init(cfg, backlog, t), es), MovedOn(EMPTY, ms);
            var acks := A.DeliverAcks(A.Responses(u.tx.accepted));
            && |acks| == |u.rxQ| && Everywhere(d) == multiset(u.rxQ)
            && forall i | 0 <= i < |acks| :: acks[i] == ResponseTo(u.rxQ[i]) && Holds(d, u.rxQ[i])
  {
    hide S.Step, A.DeliverAcks, A.Responses, MovedOn, Everywhere;
    var u, d := S.After(S.Init(cfg, backlog, t), es), MovedOn(EMPTY, ms);
    A.AckedOnlyIfQueued(cfg, backlog, t, es);
    MessagesAreSomewhere(EMPTY, ms);
    assert Everywhere(EMPTY) == multiset{} by { NothingAnywhere(); }
    forall i | 0 <= i < |u.rxQ| ensures Holds(d, u.rxQ[i]) {
      assert u.rxQ[i] in Everywhere(d);
      InOnePlace(d, u.rxQ[i]);
    }
  }

  lemma NothingAnywhere()
    ensures Everywhere(EMPTY) == multiset{}
  {
  }

  lemma InOnePlace(d: Delivery, p: Pdu)
    ensures p in Everywhere(d) <==> Holds(d, p)
  {
  }

  // ---------------------------------------------------------------- the loops

  // One pass of the receive loop: what the session pushes before the loop looks, what it pushes while the loop
  // sleeps or delivers, and how a delivery ends.
  datatype Turn = Turn(before: seq<Pdu>, during: seq<Pdu>, outcome: Outcome)

  function Pushes(ps: seq<Pdu>): seq<Move> { seq(|ps|, i requires 0 <= i < |ps| => Push(ps[i])) }

  // The moves that a pass amounts to.
  function TurnMoves(d: Delivery, t: Turn): seq<Move> {
    if d.buffer + t.before == [] then Pushes(t.during)
    else Pushes(t.before) + [Take] + Pushes(t.during) + [Finish(t.outcome)]
  }

  function AfterTurn(d: Delivery, t: Turn): Delivery {
    var seen := d.buffer + t.before;
    if seen == [] then d.(buffer := t.during)
    else
      var rest := seen[1..] + t.during;
      match t.outcome
      case Success => d.(buffer := rest, delivered := d.delivered + [seen[0]])
      case RetryableFailure => d.(buffer := rest + [seen[0]])
      case PermanentFailure => d.(buffer := rest, errors := d.errors + [seen[0]])
  }

  function AfterTurns(d: Delivery, ts: seq<Turn>): Delivery
    decreases |ts|
  {
    if ts == [] then d else AfterTurns(AfterTurn(d, ts[0]), ts[1..])
  }

  lemma {:induction false} PushesAppend(d: Delivery, ps: seq<Pdu>)
    ensures LegalMoves(d, Pushes(ps)) && MovedOn(d, Pushes(ps)) == d.(buffer := d.buffer + ps) && Pushed(Pushes(ps)) == ps
    decreases |ps|
  {
    if ps == [] {
      assert d.buffer + [] == d.buffer;
    } else {
      PushesAppend(d.(buffer := d.buffer + [ps[0]]), ps[1..]);
      assert Pushes(ps)[1..] == Pushes(ps[1..]) && d.buffer + [ps[0]] + ps[1..] == d.buffer + ps;
      assert [ps[0]] + ps[1..] == ps;
    }
  }

  lemma {:induction false} MovesAppend(d: Delivery, xs: seq<Move>, ys: seq<Move>)
    requires LegalMoves(d, xs) && LegalMoves(MovedOn(d, xs), ys)
    ensures LegalMoves(d, xs + ys) && MovedOn(d, xs + ys) == MovedOn(MovedOn(d, xs), ys)
    decreases |xs|
  {
    if xs == [] {
      assert xs + ys == ys;
    } else {
      MovesAppend(MoveOn(d, xs[0]), xs[1..], ys);
      assert (xs + ys)[1..] == xs[1..] + ys;
    }
  }

  lemma OneMove(d: Delivery, m: Move)
    requires CanMove(d, m)
    ensures LegalMoves(d, [m]) && MovedOn(d, [m]) == MoveOn(d, m)
  {
    assert [m][1..] == [];
  }

  /** A pass of the loop is an interleaving of the machine. */
  lemma TurnIsInterleaving(d: Delivery, t: Turn)
    requires d.inHand.None?
    ensures LegalMoves(d, TurnMoves(d, t)) && MovedOn(d, TurnMoves(d, t)) == AfterTurn(d, t) && AfterTurn(d, t).inHand.None?
  {
    hide LegalMoves, MovedOn;
    var seen := d.buffer + t.before;
    PushesAppend(d, t.during);
    if seen == [] {
      assert d.buffer + t.during == t.during;
    } else {
      PushesAppend(d, t.before);
      var d1 := d.(buffer := seen);
      OneMove(d1, Take);
      var d2 := MoveOn(d1, Take);
      PushesAppend(d2, t.during);
      var d3 := d2.(buffer := d2.buffer + t.during);
      OneMove(d3, Finish(t.outcome));
      MovesAppend(d, Pushes(t.before), [Take]);
      MovesAppend(d, Pushes(t.before) + [Take], Pushes(t.during));
      MovesAppend(d, Pushes(t.before) + [Take] + Pushes(t.during), [Finish(t.outcome)]);
    }
  }

  // ---------------------------------------------------------------- what the session makes of what it is sent

  function MessageLevel(ts: seq<Tagged>): seq<Pdu> {
    if ts == [] then []
    else MessageLevel(ts[..|ts| - 1]) + if ts[|ts| - 1].level == MESSAGE then [ts[|ts| - 1].pdu] else []
  }

  // The requests a sweep hands over.
  function SweptPdus(t: T.Transmitter, keys: seq<nat>): seq<Pdu>
    decreases |keys|
  {
    if keys == [] then []
    else (if t.Expired(keys[0]) then [t.w4rQ[keys[0]].pdu] else []) + SweptPdus(t.Visit(keys[0]), keys[1..])
  }

  // What an event adds to the messages: a PDU that a user sends if the session is in a state to send it, and what a
  // sweep hands over.
  function Adds(s: S.Session, e: S.Event): seq<Pdu> {
    match e
    case Send(p) => if S.Sendable(s.ctl.state, p.id) then [p] else []
    case AgeTimer(aborted) => if aborted then [] else SweptPdus(s.tx, T.Ascending(s.tx.w4rQ.Keys))
    case _ => []
  }

  function Added(s: S.Session, es: seq<S.Event>): seq<Pdu>
    requires S.Legal(s, es)
  {
    if es == [] then [] else Added(s, es[..|es| - 1]) + Adds(S.After(s, es[..|es| - 1]), es[|es| - 1])
  }

  lemma MessageSnoc(ts: seq<Tagged>, t: Tagged)
    ensures MessageLevel(ts + [t]) == MessageLevel(ts) + if t.level == MESSAGE then [t.pdu] else []
  {
    assert (ts + [t])[..|ts|] == ts;
  }

  // Nothing but a user's PDU and a sweep is handed over at level MESSAGE.
  predicate NoMessage(a: T.Action) { (a.Accept? || a.Issue? ==> a.level != MESSAGE) && !a.Look? }

  lemma ActAddsNothing(t: T.Transmitter, a: T.Action)
    requires T.Doable(t, a) && NoMessage(a)
    ensures MessageLevel(T.Act(t, a).accepted) == MessageLevel(t.accepted)
  {
    hide MessageLevel, T.Transmitter.DoWrite, T.Transmitter.WritePdu;
    match a
    case Accept(p, level) =>
      T.HandOverFrame(t, p, level);
      MessageSnoc(t.accepted, Tagged(p, level));
    case Issue(p, level) =>
      T.HandOverFrame(t.DrawNumber(), p.(num := t.nextNum), level);
      MessageSnoc(t.accepted, Tagged(p.(num := t.nextNum), level));
    case Complete(i, _) => if !t.txQ.Empty() { T.WriteFrame(t.Filed(i)); }
    case _ =>
  }

  lemma OthersAskForNone(s: S.Session, e: S.Event)
    requires S.Enabled(s, e) && !e.Send? && e != S.AgeTimer(false)
    ensures forall a | a in R.Actions(s, e) :: NoMessage(a)
  {
    hide R.Reacts;
  }

  lemma {:induction false} SweepAdds(t: T.Transmitter, keys: seq<nat>)
    ensures t.Sweep(keys).accepted == t.accepted + Tag(SweptPdus(t, keys), MESSAGE)
    decreases |keys|
  {
    hide T.Transmitter.DoWrite;
    if keys == [] {
      assert Tag([], MESSAGE) == [];
    } else {
      var k, v := keys[0], t.Visit(keys[0]);
      SweepAdds(v, keys[1..]);
      if t.Expired(k) {
        var p := t.w4rQ[k].pdu;
        T.HandOverFrame(t, p, MESSAGE);
        assert Tag([p] + SweptPdus(v, keys[1..]), MESSAGE) == [Tagged(p, MESSAGE)] + Tag(SweptPdus(v, keys[1..]), MESSAGE);
      } else {
        assert [] + SweptPdus(v, keys[1..]) == SweptPdus(v, keys[1..]);
      }
    }
  }

  lemma {:induction false} MessagesOfTagged(ts: seq<Tagged>, ps: seq<Pdu>)
    ensures MessageLevel(ts + Tag(ps, MESSAGE)) == MessageLevel(ts) + ps
  {
    hide MessageLevel;
    if ps == [] {
      assert ts + Tag([], MESSAGE) == ts;
    } else {
      var before, p := ps[..|ps| - 1], ps[|ps| - 1];
      MessagesOfTagged(ts, before);
      assert ts + Tag(ps, MESSAGE) == ts + Tag(before, MESSAGE) + [Tagged(p, MESSAGE)];
      MessageSnoc(ts + Tag(before, MESSAGE), Tagged(p, MESSAGE));
    }
  }

  lemma SendStep(s: S.Session, p: Pdu)
    ensures var u := S.Step(s, S.Send(p));
            && u.ctl == s.ctl
            && u.tx.accepted == s.tx.accepted + if S.Sendable(s.ctl.state, p.id) then [Tagged(p, MESSAGE)] else []
  {
    hide S.Sendable, T.Transmitter.DoWrite;
    T.HandOverFrame(s.tx, p, MESSAGE);
  }

  lemma EventAdds(s: S.Session, e: S.Event)
    requires S.Enabled(s, e)
    ensures MessageLevel(S.Step(s, e).tx.accepted) == MessageLevel(s.tx.accepted) + Adds(s, e)
  {
    hide S.Step, R.Actions, MessageLevel, T.Act, T.Doable, NoMessage, S.Sendable;
    if e.Send? {
      SendStep(s, e.pdu);
      MessageSnoc(s.tx.accepted, Tagged(e.pdu, MESSAGE));
      assert s.tx.accepted + [] == s.tx.accepted;
    } else if e == S.AgeTimer(false) {
      var keys := T.Ascending(s.tx.w4rQ.Keys);
      Ageing.SweepStep(s);
      SweepAdds(s.tx, keys);
      MessagesOfTagged(s.tx.accepted, SweptPdus(s.tx, keys));
    } else {
      R.TransmissionRefines(s, e);
      OthersAskForNone(s, e);
      var inv := (u: T.Transmitter) => MessageLevel(u.accepted) == MessageLevel(s.tx.accepted);
      forall u, a: T.Action | inv(u) && T.Doable(u, a) && NoMessage(a) ensures inv(T.Act(u, a)) {
        ActAddsNothing(u, a);
      }
      R.KeptByActions(inv, NoMessage, s.tx, R.Actions(s, e));
    }
  }

  predicate TakenAsAllowed(s: S.Session, es: seq<S.Event>, k: nat)
    requires S.Legal(s, es) && k < |es| && es[k].Send?
  {
    var u, v := S.At(s, es, k), S.At(s, es, k + 1);
    && v.ctl == u.ctl
    && v.tx.accepted == u.tx.accepted + if S.Sendable(u.ctl.state, es[k].pdu.id) then [Tagged(es[k].pdu, MESSAGE)] else []
  }

  /** Of what the send loop hands over, the session accepts exactly the PDUs that its state allows at the time, in turn,
      whatever the io thread does in between; the others are gone, for the loop does not put them back. All that is
      ever accepted at level MESSAGE is these and what the sweeps hand over. */
  lemma {:induction false} SendsWhatStateAllows(s: S.Session, es: seq<S.Event>)
    requires S.Legal(s, es)
    ensures MessageLevel(S.After(s, es).tx.accepted) == MessageLevel(s.tx.accepted) + Added(s, es)
    ensures forall k | 0 <= k < |es| && es[k].Send? :: TakenAsAllowed(s, es, k)
  {
    hide S.Step, MessageLevel, Adds, S.Sendable;
    if es == [] {
      assert MessageLevel(s.tx.accepted) + [] == MessageLevel(s.tx.accepted);
    } else {
      SendsWhatStateAllows(s, es[..|es| - 1]);
      EventAdds(S.After(s, es[..|es| - 1]), es[|es| - 1]);
    }
    forall k | 0 <= k < |es| && es[k].Send? ensures TakenAsAllowed(s, es, k) {
      S.AtStep(s, es, k);
      SendStep(S.At(s, es, k), es[k].pdu);
    }
  }

  // ---------------------------------------------------------------- the send loop

  // One pass of the send loop: what users hand over before it looks, and what the io thread makes of the session
  // before it hands its PDU on.
  datatype SendTurn = SendTurn(arriving: seq<Pdu>, events: seq<S.Event>)

  // What a pass amounts to for the session: what the io thread does, and the oldest PDU, if there is one.
  function PassEvents(buffer: seq<Pdu>, turn: SendTurn): seq<S.Event> {
    var seen := buffer + turn.arriving;
    turn.events + if seen == [] then [] else [S.Send(seen[0])]
  }

  function PassLeaves(buffer: seq<Pdu>, turn: SendTurn): seq<Pdu> {
    var seen := buffer + turn.arriving;
    if seen == [] then [] else seen[1..]
  }

  function LoopEvents(buffer: seq<Pdu>, turns: seq<SendTurn>): seq<S.Event>
    decreases |turns|
  {
    if turns == [] then [] else PassEvents(buffer, turns[0]) + LoopEvents(PassLeaves(buffer, turns[0]), turns[1..])
  }

  function LoopLeaves(buffer: seq<Pdu>, turns: seq<SendTurn>): seq<Pdu>
    decreases |turns|
  {
    if turns == [] then buffer else LoopLeaves(PassLeaves(buffer, turns[0]), turns[1..])
  }

  function Popped(buffer: seq<Pdu>, turns: seq<SendTurn>): seq<Pdu>
    decreases |turns|
  {
    if turns == [] then []
    else
      var seen := buffer + turns[0].arriving;
      (if seen == [] then [] else [seen[0]]) + Popped(PassLeaves(buffer, turns[0]), turns[1..])
  }

  function Arrived(turns: seq<SendTurn>): seq<Pdu> {
    if turns == [] then [] else turns[0].arriving + Arrived(turns[1..])
  }

  // The PDUs of the sends among events.
  function Sends(es: seq<S.Event>): seq<Pdu> {
    if es == [] then [] else (if es[0].Send? then [es[0].pdu] else []) + Sends(es[1..])
  }

  lemma {:induction false} SendsAppend(xs: seq<S.Event>, ys: seq<S.Event>)
    ensures Sends(xs + ys) == Sends(xs) + Sends(ys)
  {
    if xs == [] {
      assert xs + ys == ys;
    } else {
      SendsAppend(xs[1..], ys);
      assert (xs + ys)[1..] == xs[1..] + ys;
    }
  }

  lemma {:induction false} PopsInTurn(buffer: seq<Pdu>, turns: seq<SendTurn>)
    ensures Popped(buffer, turns) + LoopLeaves(buffer, turns) == buffer + Arrived(turns)
    decreases |turns|
  {
    if turns == [] {
      assert [] + buffer == buffer + [];
    } else {
      var turn, rest := turns[0], turns[1..];
      var seen, left := buffer + turn.arriving, PassLeaves(buffer, turn);
      var first := if seen == [] then [] else [seen[0]];
      PopsInTurn(left, rest);
      assert seen == first + left;
      InTurn(buffer, turn.arriving, Arrived(rest), first, left, Popped(left, rest), LoopLeaves(left, rest));
    }
  }

  lemma {:induction false} SendsPopped(buffer: seq<Pdu>, turns: seq<SendTurn>)
    requires forall t | t in turns :: Sends(t.events) == []
    ensures Sends(LoopEvents(buffer, turns)) == Popped(buffer, turns)
    decreases |turns|
  {
    hide Sends, PassEvents, PassLeaves;
    if turns == [] {
      assert Sends([]) == [] by { NoSends(); }
    } else {
      var turn, rest := turns[0], turns[1..];
      var left := PassLeaves(buffer, turn);
      SendsPopped(left, rest);
      SendsAppend(PassEvents(buffer, turn), LoopEvents(left, rest));
      PassSends(buffer, turn);
      var seen := buffer + turn.arriving;
      assert [] + (if seen == [] then [] else [seen[0]]) == if seen == [] then [] else [seen[0]];
    }
  }

  lemma NoSends()
    ensures Sends([]) == []
  {
  }

  /** The loop hands over what arrives, each PDU once and in turn, and keeps the rest in order; and where only the loop
      sends, that is all that the session is sent. */
  lemma LoopSendsInTurn(buffer: seq<Pdu>, turns: seq<SendTurn>)
    ensures Popped(buffer, turns) + LoopLeaves(buffer, turns) == buffer + Arrived(turns)
    ensures (forall t | t in turns :: Sends(t.events) == []) ==> Sends(LoopEvents(buffer, turns)) == Popped(buffer, turns)
  {
    PopsInTurn(buffer, turns);
    if forall t | t in turns :: Sends(t.events) == [] {
      SendsPopped(buffer, turns);
    }
  }

  lemma InTurn(buffer: seq<Pdu>, arriving: seq<Pdu>, later: seq<Pdu>, first: seq<Pdu>, left: seq<Pdu>, popped: seq<Pdu>, kept: seq<Pdu>)
    requires buffer + arriving == first + left && popped + kept == left + later
    ensures first + popped + kept == buffer + (arriving + later)
  {
    assert first + popped + kept == first + (popped + kept) == first + left + later;
    assert buffer + (arriving + later) == buffer + arriving + later;
  }

  lemma PassSends(buffer: seq<Pdu>, turn: SendTurn)
    ensures var seen := buffer + turn.arriving;
            Sends(PassEvents(buffer, turn)) == Sends(turn.events) + if seen == [] then [] else [seen[0]]
  {
    var seen := buffer + turn.arriving;
    SendsAppend(turn.events, if seen == [] then [] else [S.Send(seen[0])]);
    if seen != [] {
      assert [S.Send(seen[0])][1..] == [];
      assert [seen[0]] + [] == [seen[0]];
    }
  }

  class Ksmppc {
    const session: SM.SessionManager
    var sendingBuffer: seq<Pdu>
    var recieveBuffer: seq<Pdu>
    var rcvErrBuffer: seq<Pdu>
    ghost var delivered: seq<Pdu>

    constructor (s: SM.SessionManager)
      ensures session == s && sendingBuffer == recieveBuffer == rcvErrBuffer == delivered == []
    {
      session := s;
      sendingBuffer, recieveBuffer, rcvErrBuffer, delivered := [], [], [], [];
    }

    ghost function Mail(): Delivery
      reads this
    {
      Delivery(recieveBuffer, None, rcvErrBuffer, delivered)
    }

    // The receive loop, for as many passes as it is left running.
    method RecieveProcessor(turns: seq<Turn>)
      modifies this
      ensures Mail() == AfterTurns(old(Mail()), turns) && sendingBuffer == old(sendingBuffer)
    {
      var i := 0;
      while i < |turns|
        invariant i <= |turns| && sendingBuffer == old(sendingBuffer)
        invariant AfterTurns(Mail(), turns[i..]) == AfterTurns(old(Mail()), turns)
      {
        ReceivePass(turns[i]);
        assert turns[i..][0] == turns[i] && turns[i..][1..] == turns[i + 1..];
        i := i + 1;
      }
    }

    method ReceivePass(turn: Turn)
      modifies this`recieveBuffer, this`rcvErrBuffer, this`delivered
      ensures Mail() == AfterTurn(old(Mail()), turn)
    {
      recieveBuffer := recieveBuffer + turn.before;
      if recieveBuffer == [] {
        recieveBuffer := turn.during;  // asleep
      } else {
        var pdu := recieveBuffer[0];
        recieveBuffer := recieveBuffer[1..] + turn.during;
        match turn.outcome
        case Success => delivered := delivered + [pdu];
        case RetryableFailure => recieveBuffer := recieveBuffer + [pdu];
        case PermanentFailure => rcvErrBuffer := rcvErrBuffer + [pdu];
      }
    }

    // The send loop, for as many passes as it is left running.
    method SendingProcessor(turns: seq<SendTurn>)
      requires S.Legal(session.State(), LoopEvents(sendingBuffer, turns))
      modifies this`sendingBuffer, session, session.txQ, session.seqNumGen
      ensures sendingBuffer == LoopLeaves(old(sendingBuffer), turns)
      ensures session.State() == S.After(old(session.State()), LoopEvents(old(sendingBuffer), turns))
    {
      hide S.Legal, S.After;
      ghost var left := LoopLeaves(sendingBuffer, turns);
      ghost var end := S.After(session.State(), LoopEvents(sendingBuffer, turns));
      var i := 0;
      while i < |turns|
        invariant i <= |turns| && LoopLeaves(sendingBuffer, turns[i..]) == left
        invariant S.Legal(session.State(), LoopEvents(sendingBuffer, turns[i..]))
        invariant S.After(session.State(), LoopEvents(sendingBuffer, turns[i..])) == end
      {
        assert turns[i..][0] == turns[i] && turns[i..][1..] == turns[i + 1..];
        S.LegalSplit(session.State(), PassEvents(sendingBuffer, turns[i]),
                     LoopEvents(PassLeaves(sendingBuffer, turns[i]), turns[i + 1..]));
        SendPass(turns[i]);
        i := i + 1;
      }
      S.LegalNone(session.State());
    }

    method SendPass(turn: SendTurn)
      requires S.Legal(session.State(), PassEvents(sendingBuffer, turn))
      modifies this`sendingBuffer, session, session.txQ, session.seqNumGen
      ensures sendingBuffer == PassLeaves(old(sendingBuffer), turn)
      ensures session.State() == S.After(old(session.State()), PassEvents(old(sendingBuffer), turn))
    {
      hide S.Legal, S.After;
      ghost var es := PassEvents(sendingBuffer, turn);
      ghost var rest := es[|turn.events|..];
      assert es == turn.events + rest;
      S.LegalSplit(session.State(), turn.events, rest);
      sendingBuffer := sendingBuffer + turn.arriving;
      if sendingBuffer == [] {
        session.Run(turn.events);  // meanwhile asleep
        assert es == turn.events;
      } else {
        var pdu := sendingBuffer[0];
        sendingBuffer := sendingBuffer[1..];
        session.Run(turn.events);
        S.LegalSnoc(old(session.State()), turn.events, S.Send(pdu));
        session.SendPdu(pdu);
      }
    }
  }
}

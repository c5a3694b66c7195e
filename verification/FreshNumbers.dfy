// How often a number is used: once when it is drawn, and once more each time its request is put back or resent.
module FreshNumbers {
  import opened Smpp
  import opened SequenceNumbers
  import opened TransmitQueue
  import opened Transmitter
  import opened Session
  import opened Refinement
  import opened Numbering
  import Awaiting

  function Hit(p: Pdu, n: nat): nat { if p.IsRequest() && p.num == n then 1 else 0 }

  // The requests numbered n in a line of the queue, on the wire, and among those put back; the resendings of n.
  function InLine(ps: seq<Pdu>, n: nat): nat {
    if ps == [] then 0 else InLine(ps[..|ps| - 1], n) + Hit(ps[|ps| - 1], n)
  }

  function OnWire(ws: seq<Sent>, n: nat): nat {
    if ws == [] then 0 else OnWire(ws[..|ws| - 1], n) + Hit(ws[|ws| - 1].pdu, n)
  }

  function PutBacks(ts: seq<Tagged>, n: nat): nat {
    if ts == [] then 0 else PutBacks(ts[..|ts| - 1], n) + Hit(ts[|ts| - 1].pdu, n)
  }

  function Resendings(acks: seq<Ack>, n: nat): nat {
    if acks == [] then 0 else Resendings(acks[..|acks| - 1], n) + if acks[|acks| - 1] == Resent(n) then 1 else 0
  }

  function InQueue(q: TxQ, n: nat): nat { InLine(q.session, n) + InLine(q.response, n) + InLine(q.message, n) }

  function Uses(t: Transmitter, n: nat): nat { OnWire(t.wire, n) + InQueue(t.txQ, n) }

  function Reasons(t: Transmitter, n: nat): nat {
    (if n < SEQ_MIN + t.draws then 1 else 0) + PutBacks(t.returned, n) + Resendings(t.acks, n)
  }

  // Until a cycle of numbers is used up, n is used no more often than there are reasons to, and extra.
  predicate Within(t: Transmitter, n: nat, extra: int) {
    t.nextNum == Nth(t.draws) && (Unwrapped(t) && n > SEQ_MIN ==> Uses(t, n) <= Reasons(t, n) + extra)
  }

  // ---------------------------------------------------------------- counting

  lemma LineSnoc(ps: seq<Pdu>, p: Pdu, n: nat)
    ensures InLine(ps + [p], n) == InLine(ps, n) + Hit(p, n)
  {
    assert (ps + [p])[..|ps|] == ps;
  }

  lemma {:induction false} LineCons(p: Pdu, ps: seq<Pdu>, n: nat)
    ensures InLine([p] + ps, n) == Hit(p, n) + InLine(ps, n)
  {
    if ps == [] {
      assert [p] + ps == [] + [p];
      LineSnoc([], p, n);
    } else {
      LineCons(p, ps[..|ps| - 1], n);
      LineSnoc([p] + ps[..|ps| - 1], ps[|ps| - 1], n);
      assert [p] + ps[..|ps| - 1] + [ps[|ps| - 1]] == [p] + ps;
    }
  }

  lemma WireSnoc(ws: seq<Sent>, w: Sent, n: nat)
    ensures OnWire(ws + [w], n) == OnWire(ws, n) + Hit(w.pdu, n)
  {
    assert (ws + [w])[..|ws|] == ws;
  }

  lemma PutBackSnoc(ts: seq<Tagged>, t: Tagged, n: nat)
    ensures PutBacks(ts + [t], n) == PutBacks(ts, n) + Hit(t.pdu, n)
  {
    assert (ts + [t])[..|ts|] == ts;
  }

  lemma ResendingSnoc(acks: seq<Ack>, a: Ack, n: nat)
    ensures Resendings(acks + [a], n) == Resendings(acks, n) + if a == Resent(n) then 1 else 0
  {
    assert (acks + [a])[..|acks|] == acks;
  }

  lemma PushCounts(q: TxQ, p: Pdu, level: Level, n: nat)
    ensures InQueue(q.Push(p, level), n) == InQueue(q, n) + Hit(p, n)
  {
    hide InLine, Hit;
    LineSnoc(q.Line(level), p, n);
  }

  lemma PopCounts(q: TxQ, m: nat, n: nat)
    requires !q.Empty()
    ensures InQueue(q.PopAs(m), n) + Hit(q.Front().pdu, n) == InQueue(q, n)
  {
    hide InLine, Hit;
    var line := q.Line(q.Front().level);
    LineCons(line[0], line[1..], n);
    assert [line[0]] + line[1..] == line;
  }

  lemma PutBackCounts(q: TxQ, t: Tagged, n: nat)
    ensures InQueue(q.PutBack(t), n) == InQueue(q, n) + Hit(t.pdu, n)
  {
    hide InLine, Hit;
    LineCons(t.pdu, q.Line(t.level), n);
  }

  // ---------------------------------------------------------------- what each action does to the count

  lemma WriteWithin(t: Transmitter, n: nat, extra: int)
    requires !t.txQ.Empty() && Within(t, n, extra)
    ensures Within(t.WritePdu(), n, extra)
  {
    hide InQueue, OnWire, PutBacks, Resendings;
    var u, p := t.WritePdu(), t.txQ.Front().pdu;
    PopCounts(t.txQ, t.NumberFor(p), n);
    assert u.wire == t.wire + [u.wire[|t.wire|]] && u.wire[|t.wire|].pdu == p.(num := t.NumberFor(p));
    WireSnoc(t.wire, u.wire[|t.wire|], n);
    assert u.txQ == t.txQ.PopAs(t.NumberFor(p));
    if p.num <= SEQ_MIN && Unwrapped(u) {
      DrawNext(t);
    }
  }

  lemma HandOverWithin(t: Transmitter, p: Pdu, level: Level, n: nat, extra: int)
    requires Within(t, n, extra)
    ensures Within(t.DoWrite(p, level), n, extra + Hit(p, n))
  {
    hide InQueue, OnWire, PutBacks, Resendings, Hit, Transmitter.WritePdu;
    PushCounts(t.txQ, p, level, n);
    if t.txQ.Empty() {
      WriteWithin(t.Queued(p, level), n, extra + Hit(p, n));
    }
  }

  lemma IssueWithin(t: Transmitter, p: Pdu, level: Level, n: nat)
    requires Within(t, n, 0)
    ensures Within(t.DoWriteNumbered(p, level), n, 0)
  {
    hide Uses, PutBacks, Resendings, Transmitter.DoWrite;
    var d, p' := t.DrawNumber(), p.(num := t.nextNum);
    assert Uses(d, n) == Uses(t, n) by { SameUses(t, d, n); }
    if Unwrapped(d) {
      DrawNext(t);
    }
    var spare := if n == SEQ_MIN + t.draws then 1 else 0;
    HandOverWithin(d, p', level, n, -spare);
    HandOverFrame(d, p', level);
  }

  lemma SameUses(t: Transmitter, u: Transmitter, n: nat)
    requires u.wire == t.wire && u.txQ == t.txQ
    ensures Uses(u, n) == Uses(t, n)
  {
  }

  lemma VisitWithin(t: Transmitter, k: nat, n: nat)
    requires Within(t, n, 0) && t.Expired(k)
    ensures Within(t.Visit(k), n, 0)
  {
    hide Uses, PutBacks, Resendings, Transmitter.DoWrite;
    var p := t.w4rQ[k].pdu;
    var m := if t.txQ.Empty() then t.NumberFor(p) else p.num;
    var v, u := t.DoWrite(p, MESSAGE), t.Visit(k);
    HandOverWithin(t, p, MESSAGE, n, 0);
    HandOverFrame(t, p, MESSAGE);
    SameUses(v, u, n);
    ResendingSnoc(t.acks, Resent(m), n);
    assert u.acks == t.acks + [Resent(m)] && v.acks == t.acks;
  }

  lemma FailureWithin(t: Transmitter, stale: bool, i: nat, n: nat)
    requires Within(t, n, 0) && t.CanFail(stale, i)
    ensures Within(t.WriteError(stale, i), n, 0)
  {
    hide InQueue, OnWire, PutBacks, Resendings, Hit;
    var u := t.WriteError(stale, i);
    if t.txQ.lastPop.Some? {
      PutBackCounts(t.txQ, t.txQ.lastPop.value, n);
      PutBackSnoc(t.returned, t.txQ.lastPop.value, n);
    } else {
      assert u.returned == t.returned;
    }
  }

  lemma OtherWithin(t: Transmitter, a: Action, n: nat)
    requires Within(t, n, 0) && Doable(t, a) && (a.Read? || a.Open? || a.Shut? || a.Pause?)
    ensures Within(Act(t, a), n, 0)
  {
    hide InLine, OnWire, PutBacks, Resendings;
    if a.Read? {
      ResendingSnoc(t.acks, Answered(a.pdu.num), n);
    }
    assert InLine([], n) == 0 by { NothingInLine(n); }
  }

  lemma NothingInLine(n: nat)
    ensures InLine([], n) == 0
  {
  }

  lemma CompletionWithin(t: Transmitter, i: nat, bound: bool, n: nat)
    requires Within(t, n, 0) && i < |t.writes|
    ensures Within(t.WriteOk(i, bound), n, 0)
  {
    hide Uses, PutBacks, Resendings, Transmitter.WritePdu;
    var f := t.Filed(i);
    ResendingSnoc(t.acks, Completed(t.writes[i]), n);
    SameUses(t, f, n);
    if !t.txQ.Empty() {
      WriteWithin(f, n, 0);
    }
  }

  lemma ActWithin(t: Transmitter, a: Action, n: nat)
    requires Within(t, n, 0) && Doable(t, a) && Unnumbered(a)
    ensures Within(Act(t, a), n, 0)
  {
    hide Uses, Reasons, Transmitter.DoWrite, Transmitter.DoWriteNumbered, Transmitter.WriteOk, Transmitter.WriteError;
    match a
    case Accept(p, level) => HandOverWithin(t, p, level, n, 0);
    case Issue(p, level) => IssueWithin(t, p, level, n);
    case Look(k) => if t.Expired(k) { VisitWithin(t, k, n); }
    case Complete(i, bound) => CompletionWithin(t, i, bound, n);
    case Fail(stale, j) => FailureWithin(t, stale, j, n);
    case _ => OtherWithin(t, a, n);
  }

  // ---------------------------------------------------------------- runs

  /** In any run within one cycle of numbers, with any backlog and any write errors, each number above the minimum is on
      the wire and in the queue together at most once for its draw, once for each time its request was put back after
      a write error, and once for each time it was resent. */
  lemma {:induction false} NumbersUsedWithReason(cfg: Config, backlog: seq<Pdu>, t: nat, es: seq<Event>, n: nat)
    requires Legal(Init(cfg, backlog, t), es) && n > SEQ_MIN
    requires (forall p | p in backlog :: !Numbered(p)) && (forall e | e in es :: Submits(e))
    requires Unwrapped(After(Init(cfg, backlog, t), es).tx)
    ensures var u := After(Init(cfg, backlog, t), es).tx; Uses(u, n) <= Reasons(u, n)
  {
    hide Step, Act, Doable, Actions, Uses, Reasons, Unnumbered;
    var init := Init(cfg, backlog, t);
    var inv := u => Within(u, n, 0);
    assert inv(init.tx) by { StartWithin(cfg, backlog, t, n); }
    assert Asks(Unnumbered, init, es) by {
      forall k, a | 0 <= k < |es| && a in Actions(At(init, es, k), es[k]) ensures Unnumbered(a) {
        AtStep(init, es, k);
        assert es[k] in es;
        AcceptsUnnumbered(At(init, es, k), es[k]);
      }
    }
    forall u, a: Action | inv(u) && Doable(u, a) && Unnumbered(a) ensures inv(Act(u, a)) {
      ActWithin(u, a, n);
    }
    KeptByRun(inv, Unnumbered, init, es, |es|);
    AtEnds(init, es);
  }

  lemma {:induction false} NoneNumbered(ps: seq<Pdu>, n: nat)
    requires n > SEQ_MIN && forall p | p in ps :: !Numbered(p)
    ensures InLine(ps, n) == 0
  {
    if ps != [] {
      NoneNumbered(ps[..|ps| - 1], n);
      assert ps[|ps| - 1] in ps;
    }
  }

  lemma StartWithin(cfg: Config, backlog: seq<Pdu>, t: nat, n: nat)
    requires n > SEQ_MIN && forall p | p in backlog :: !Numbered(p)
    ensures Within(Init(cfg, backlog, t).tx, n, 0)
  {
    NoneNumbered(backlog, n);
  }

  lemma {:induction false} TwiceOnWire(ws: seq<Sent>, i: nat, j: nat, n: nat)
    requires i < |ws| && j < |ws| && Hit(ws[i].pdu, n) == 1 && Hit(ws[j].pdu, n) == 1
    ensures OnWire(ws, n) >= if i == j then 1 else 2
  {
    var last := |ws| - 1;
    if i < last && j < last {
      TwiceOnWire(ws[..last], i, j, n);
    } else if i < last {
      TwiceOnWire(ws[..last], i, i, n);
    } else if j < last {
      TwiceOnWire(ws[..last], j, j, n);
    }
  }

  /** So two requests on the wire carry different numbers, unless their number was put back or resent: each number that
      was not stands for one write. */
  lemma {:induction false} FreshNumbersDiffer(cfg: Config, backlog: seq<Pdu>, t: nat, es: seq<Event>, i: nat, j: nat)
    requires Legal(Init(cfg, backlog, t), es)
    requires (forall p | p in backlog :: !Numbered(p)) && (forall e | e in es :: Submits(e))
    requires var u := After(Init(cfg, backlog, t), es).tx;
             Unwrapped(u) && i < j < |u.wire| && u.wire[i].pdu.IsRequest() && u.wire[j].pdu.IsRequest()
    ensures var u := After(Init(cfg, backlog, t), es).tx; var n := u.wire[j].pdu.num;
            && SEQ_MIN < n < SEQ_MIN + u.draws
            && (u.wire[i].pdu.num == n ==> PutBacks(u.returned, n) + Resendings(u.acks, n) >= 1)
  {
    hide Step, Hit, InQueue, Distinct;
    var u := After(Init(cfg, backlog, t), es).tx;
    var n := u.wire[j].pdu.num;
    NumberStandsForOneRequest(cfg, backlog, t, es);
    WrittenAreNumbered(u, j);
    NumbersUsedWithReason(cfg, backlog, t, es, n);
    if u.wire[i].pdu.num == n {
      assert Hit(u.wire[i].pdu, n) == 1 && Hit(u.wire[j].pdu, n) == 1 by { Hits(u.wire[i].pdu, n); Hits(u.wire[j].pdu, n); }
      TwiceOnWire(u.wire, i, j, n);
    }
  }

  lemma Hits(p: Pdu, n: nat)
    ensures Hit(p, n) == 1 <==> p.IsRequest() && p.num == n
  {
  }

  /** Filing a request never pushes a different one out of the map. What is filed under a number in use is the same
      request; and unless that was put back or resent, no second one was ever written under its number. */
  lemma {:induction false} FilingDisplacesNothing(cfg: Config, backlog: seq<Pdu>, t: nat, es: seq<Event>, i: nat)
    requires Legal(Init(cfg, backlog, t), es)
    requires (forall p | p in backlog :: !Numbered(p)) && (forall e | e in es :: Submits(e))
    requires var u := After(Init(cfg, backlog, t), es).tx; Unwrapped(u) && i < |u.writes|
    ensures var u := After(Init(cfg, backlog, t), es).tx;
            forall k | k in u.w4rQ :: k in u.Filed(i).w4rQ && u.Filed(i).w4rQ[k].pdu == u.w4rQ[k].pdu
    ensures var u := After(Init(cfg, backlog, t), es).tx;
            forall k | k in u.w4rQ && PutBacks(u.returned, k) == 0 && Resendings(u.acks, k) == 0 :: Uses(u, k) <= 1
  {
    hide Step, Numbers, Uses, PutBacks, Resendings;
    NumberStandsForOneRequest(cfg, backlog, t, es);
    Awaiting.FilesOnlyRequests(cfg, backlog, t, es);
    var u := After(Init(cfg, backlog, t), es).tx;
    FilingReplacesSelf(u, i);
    forall k | k in u.w4rQ && PutBacks(u.returned, k) == 0 && Resendings(u.acks, k) == 0 ensures Uses(u, k) <= 1 {
      FiledAreNumbered(u, k);
      NumbersUsedWithReason(cfg, backlog, t, es, k);
    }
  }

  lemma FiledAreNumbered(u: Transmitter, k: nat)
    requires Numbers(u) && Unwrapped(u) && Awaiting.Filing(u) && k in u.w4rQ
    ensures k > SEQ_MIN
  {
    assert Used(u, u.w4rQ[k].pdu);
  }

  lemma FilingReplacesSelf(u: Transmitter, i: nat)
    requires Numbers(u) && Unwrapped(u) && Awaiting.Filing(u) && i < |u.writes|
    ensures forall k | k in u.w4rQ :: k in u.Filed(i).w4rQ && u.Filed(i).w4rQ[k].pdu == u.w4rQ[k].pdu
  {
    forall k | k in u.w4rQ ensures k in u.Filed(i).w4rQ && u.Filed(i).w4rQ[k].pdu == u.w4rQ[k].pdu {
      if u.txQ.lastPop.Some? {
        var p, q := u.txQ.lastPop.value.pdu, u.w4rQ[k].pdu;
        assert Used(u, p) && Used(u, q) && Known(u, p) && Known(u, q);
      }
    }
  }
}

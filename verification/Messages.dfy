// The messages that were written and those that are queued, against those that were handed over and put back.
module Messages {
  import opened Smpp
  import opened TransmitQueue
  import opened Transmitter
  import opened Session
  import opened Refinement

  function Bares(ps: seq<Pdu>): seq<Pdu> {
    seq(|ps|, i requires 0 <= i < |ps| => ps[i].Bare())
  }

  // A PDU of level MESSAGE, without its number; nothing for the other levels.
  function MessageOf(t: Tagged): multiset<Pdu> { if t.level == MESSAGE then multiset{t.pdu.Bare()} else multiset{} }

  // The messages among PDUs handed to the queue, and among those written.
  function TaggedMessages(ts: seq<Tagged>): multiset<Pdu> {
    if ts == [] then multiset{} else TaggedMessages(ts[..|ts| - 1]) + MessageOf(ts[|ts| - 1])
  }

  function SentMessages(ws: seq<Sent>): multiset<Pdu> {
    if ws == [] then multiset{}
    else SentMessages(ws[..|ws| - 1]) + MessageOf(Tagged(ws[|ws| - 1].pdu, ws[|ws| - 1].level))
  }

  function Queued(t: Transmitter): multiset<Pdu> { multiset(Bares(t.txQ.message)) }

  // Every message that was there at the start, was accepted since, or was put back after a write error,
  // has been written, well or not, or is still queued; and nothing else is.
  ghost predicate Conserved(start: multiset<Pdu>, t: Transmitter) {
    Queued(t) + SentMessages(t.wire) == start + TaggedMessages(t.accepted) + TaggedMessages(t.returned)
  }

  lemma TaggedSnoc(ts: seq<Tagged>, t: Tagged)
    ensures TaggedMessages(ts + [t]) == TaggedMessages(ts) + MessageOf(t)
  {
    assert (ts + [t])[..|ts|] == ts;
  }

  lemma SentSnoc(ws: seq<Sent>, w: Sent)
    ensures SentMessages(ws + [w]) == SentMessages(ws) + MessageOf(Tagged(w.pdu, w.level))
  {
    assert (ws + [w])[..|ws|] == ws;
  }

  lemma BaresOfOneMore(ps: seq<Pdu>, p: Pdu)
    ensures multiset(Bares(ps + [p])) == multiset(Bares(ps)) + multiset{p.Bare()}
    ensures multiset(Bares([p] + ps)) == multiset(Bares(ps)) + multiset{p.Bare()}
  {
    assert Bares(ps + [p]) == Bares(ps) + [p.Bare()];
    assert Bares([p] + ps) == [p.Bare()] + Bares(ps);
  }

  lemma PushConserves(t: Transmitter, p: Pdu, level: Level)
    ensures Queued(t.Queued(p, level)) == Queued(t) + MessageOf(Tagged(p, level))
    ensures TaggedMessages(t.Queued(p, level).accepted) == TaggedMessages(t.accepted) + MessageOf(Tagged(p, level))
  {
    BaresOfOneMore(t.txQ.message, p);
    TaggedSnoc(t.accepted, Tagged(p, level));
  }

  lemma PopConserves(t: Transmitter)
    requires !t.txQ.Empty()
    ensures var u := t.WritePdu();
            && Queued(u) + SentMessages(u.wire) == Queued(t) + SentMessages(t.wire)
            && u.accepted == t.accepted && u.returned == t.returned
  {
    hide SentMessages;
    var u, front := t.WritePdu(), t.txQ.Front();
    SentSnoc(t.wire, u.wire[|t.wire|]);
    assert u.wire == t.wire + [u.wire[|t.wire|]];
    assert u.wire[|t.wire|].pdu.Bare() == front.pdu.Bare();
    if front.level == MESSAGE {
      BaresOfOneMore(t.txQ.message[1..], t.txQ.message[0]);
      assert [t.txQ.message[0]] + t.txQ.message[1..] == t.txQ.message;
    }
  }

  lemma BothSides(x: multiset<Pdu>, y: multiset<Pdu>, m: multiset<Pdu>)
    requires x == y
    ensures x + m == y + m
  {
  }

  lemma WriteConserves(start: multiset<Pdu>, t: Transmitter, p: Pdu, level: Level)
    requires Conserved(start, t)
    ensures Conserved(start, t.DoWrite(p, level))
  {
    hide Transmitter.WritePdu, SentMessages, TaggedMessages, Queued;
    var m := MessageOf(Tagged(p, level));
    PushConserves(t, p, level);
    PopConserves(t.Queued(p, level));
    BothSides(Queued(t) + SentMessages(t.wire), start + TaggedMessages(t.accepted) + TaggedMessages(t.returned), m);
    assert Queued(t) + m + SentMessages(t.wire) == Queued(t) + SentMessages(t.wire) + m;
    assert start + (TaggedMessages(t.accepted) + m) + TaggedMessages(t.returned)
        == start + TaggedMessages(t.accepted) + TaggedMessages(t.returned) + m;
  }

  function LastMessage(t: Transmitter): multiset<Pdu> {
    if t.txQ.lastPop.Some? then MessageOf(t.txQ.lastPop.value) else multiset{}
  }

  lemma ReturnsLast(t: Transmitter, stale: bool, j: nat)
    requires t.CanFail(stale, j)
    ensures var u := t.WriteError(stale, j);
            && Queued(u) == Queued(t) + LastMessage(t) && u.wire == t.wire && u.accepted == t.accepted
            && TaggedMessages(u.returned) == TaggedMessages(t.returned) + LastMessage(t)
  {
    hide TaggedMessages, Bares;
    if t.txQ.lastPop.Some? {
      BaresOfOneMore(t.txQ.message, t.txQ.lastPop.value.pdu);
      TaggedSnoc(t.returned, t.txQ.lastPop.value);
    } else {
      assert t.WriteError(stale, j).returned == t.returned;
    }
  }

  lemma ReturnConserves(start: multiset<Pdu>, t: Transmitter, stale: bool, j: nat)
    requires Conserved(start, t) && t.CanFail(stale, j)
    ensures Conserved(start, t.WriteError(stale, j))
  {
    hide SentMessages, TaggedMessages, Queued, LastMessage, Transmitter.WriteError;
    ReturnsLast(t, stale, j);
    assert Queued(t) + LastMessage(t) + SentMessages(t.wire) == Queued(t) + SentMessages(t.wire) + LastMessage(t);
  }

  lemma ReadConserves(start: multiset<Pdu>, t: Transmitter, a: Action)
    requires Conserved(start, t) && Doable(t, a) && (a.Read? || a.Open? || a.Shut? || a.Pause?)
    ensures Conserved(start, Act(t, a))
  {
    hide SentMessages, TaggedMessages;
  }

  lemma CompletionConserves(start: multiset<Pdu>, t: Transmitter, i: nat, bound: bool)
    requires Conserved(start, t) && i < |t.writes|
    ensures Conserved(start, t.WriteOk(i, bound))
  {
    hide Transmitter.WritePdu, SentMessages, TaggedMessages;
    if !t.txQ.Empty() {
      PopConserves(t.Filed(i));
    }
  }

  lemma ActConserves(start: multiset<Pdu>, t: Transmitter, a: Action)
    requires Conserved(start, t) && Doable(t, a)
    ensures Conserved(start, Act(t, a))
  {
    hide Transmitter.DoWrite, Transmitter.WriteError, Transmitter.WriteOk, SentMessages, TaggedMessages;
    match a
    case Accept(p, level) => WriteConserves(start, t, p, level);
    case Issue(p, level) => WriteConserves(start, t.DrawNumber(), p.(num := t.nextNum), level);
    case Look(k) => if t.Expired(k) { WriteConserves(start, t, t.w4rQ[k].pdu, MESSAGE); }
    case Complete(i, bound) => CompletionConserves(start, t, i, bound);
    case Fail(stale, j) => ReturnConserves(start, t, stale, j);
    case _ => ReadConserves(start, t, a);
  }

  /** In every run, through every close and reconnect, write error and sweep, messages written and messages queued
      balance those handed over and those put back. A write that fails counts as written here. */
  lemma {:induction false} MessagesConserved(cfg: Config, backlog: seq<Pdu>, t: nat, es: seq<Event>)
    requires Legal(Init(cfg, backlog, t), es)
    ensures Conserved(multiset(Bares(backlog)), After(Init(cfg, backlog, t), es).tx)
  {
    hide Step, Act, Doable, Conserved;
    var start := multiset(Bares(backlog));
    var inv := u => Conserved(start, u);
    assert inv(Init(cfg, backlog, t).tx) by { StartConserved(cfg, backlog, t); }
    forall u, a: Action | inv(u) && Doable(u, a) ensures inv(Act(u, a)) {
      ActConserves(start, u, a);
    }
    KeptByEveryRun(inv, Init(cfg, backlog, t), es);
  }

  lemma StartConserved(cfg: Config, backlog: seq<Pdu>, t: nat)
    ensures Conserved(multiset(Bares(backlog)), Init(cfg, backlog, t).tx)
  {
  }
}

// How fast the throttle lets PDUs out.
module Throttle {
  import opened Smpp
  import opened TransmitQueue
  import opened Transmitter
  import opened Session
  import opened Refinement
  import opened StateSafety
  import opened Binding

  predicate Follows(v: Sent, w: Sent, interval: nat) {
    && v.at <= w.read <= w.at
    && w.at == if w.read < v.read + interval then v.read + interval else w.read
  }

  // Each write waits for the clock reading of the write before it plus the interval, and for nothing else.
  ghost predicate Paced(wire: seq<Sent>, interval: nat) {
    && (wire != [] ==> wire[0].at == wire[0].read)
    && forall i | 0 < i < |wire| :: Follows(wire[i - 1], wire[i], interval)
  }

  ghost predicate OnTime(t: Transmitter) {
    && Paced(t.wire, t.interval) && t.throttleNext <= t.now + t.interval
    && if t.wire == [] then t.throttleNext <= t.now
       else t.throttleNext == t.wire[|t.wire| - 1].read + t.interval && t.wire[|t.wire| - 1].at <= t.now
  }

  lemma OneMore(wire: seq<Sent>, interval: nat, w: Sent, next: nat)
    requires Paced(wire, interval) && w.at == if w.read < next then next else w.read
    requires if wire == [] then next <= w.read else next == wire[|wire| - 1].read + interval && wire[|wire| - 1].at <= w.read
    ensures Paced(wire + [w], interval)
  {
    var all := wire + [w];
    forall i | 0 < i < |all| ensures Follows(all[i - 1], all[i], interval) {
      if i < |wire| {
        assert all[i - 1] == wire[i - 1] && all[i] == wire[i];
      } else {
        assert all[i - 1] == wire[|wire| - 1];
      }
    }
  }

  lemma WriteOnTime(t: Transmitter)
    requires OnTime(t) && !t.txQ.Empty()
    ensures OnTime(t.WritePdu()) && t.WritePdu().interval == t.interval && t.now <= t.WritePdu().now <= t.now + t.interval
  {
    hide Paced;
    var at := if t.now < t.throttleNext then t.throttleNext else t.now;
    var w := t.WritePdu().wire[|t.wire|];
    assert t.WritePdu().wire == t.wire + [w] && w.read == t.now && w.at == at;
    OneMore(t.wire, t.interval, w, t.throttleNext);
  }

  lemma HandOverOnTime(t: Transmitter, p: Pdu, level: Level)
    requires OnTime(t)
    ensures OnTime(t.DoWrite(p, level)) && t.DoWrite(p, level).interval == t.interval
  {
    hide Paced, Transmitter.WritePdu;
    if t.txQ.Empty() {
      WriteOnTime(t.Queued(p, level));
    }
  }

  lemma ActOnTime(t: Transmitter, a: Action)
    requires OnTime(t) && Doable(t, a)
    ensures OnTime(Act(t, a)) && Act(t, a).interval == t.interval
  {
    hide Paced, Transmitter.DoWrite, Transmitter.WritePdu, TxQ.PushBackLastPop, TxQ.ClearSessionQueues;
    match a
    case Accept(p, level) => HandOverOnTime(t, p, level);
    case Issue(p, level) => HandOverOnTime(t.DrawNumber(), p.(num := t.nextNum), level);
    case Complete(i, _) => if !t.txQ.Empty() { WriteOnTime(t.Filed(i)); }
    case Look(k) => if t.Expired(k) { HandOverOnTime(t, t.w4rQ[k].pdu, MESSAGE); }
    case _ =>
  }

  lemma {:induction false} OnTimeRun(cfg: Config, backlog: seq<Pdu>, t: nat, es: seq<Event>)
    requires Legal(Init(cfg, backlog, t), es)
    ensures OnTime(After(Init(cfg, backlog, t), es).tx) && After(Init(cfg, backlog, t), es).tx.interval == cfg.Interval()
  {
    hide Step, Act, Paced;
    var inv := (u: Transmitter) => OnTime(u) && u.interval == cfg.Interval();
    assert OnTime(Init(cfg, backlog, t).tx) by { assert Paced([], cfg.Interval()) by { NothingPaced(cfg.Interval()); } }
    forall u, a | inv(u) && Doable(u, a) ensures inv(Act(u, a)) {
      ActOnTime(u, a);
    }
    KeptByEveryRun(inv, Init(cfg, backlog, t), es);
  }

  lemma NothingPaced(interval: nat)
    ensures Paced([], interval)
  {
  }

  // ---------------------------------------------------------------- what a paced wire amounts to

  /** No sleep is longer than the interval. */
  lemma SleepsAreShort(wire: seq<Sent>, interval: nat, i: nat)
    requires Paced(wire, interval) && i < |wire|
    ensures wire[i].at - wire[i].read <= interval
  {
    if i > 0 {
      SleepsAreShort(wire, interval, i - 1);
      assert Follows(wire[i - 1], wire[i], interval);
      assert i > 1 ==> Follows(wire[i - 2], wire[i - 1], interval);
    }
  }

  /** Every other write keeps the interval: 2k writes take at least k intervals. */
  lemma {:induction false} TwoPerInterval(wire: seq<Sent>, interval: nat, i: nat, k: nat)
    requires Paced(wire, interval) && i + 2 * k < |wire|
    ensures wire[i].at + k * interval <= wire[i + 2 * k].at
  {
    if k > 0 {
      TwoPerInterval(wire, interval, i, k - 1);
      var j := i + 2 * k;
      assert wire[j].at >= wire[j - 1].read + interval && wire[j - 1].read >= wire[j - 2].at;
      assert k * interval == (k - 1) * interval + interval;
    }
  }

  lemma {:induction false} Monotone(wire: seq<Sent>, interval: nat, i: nat, j: nat)
    requires Paced(wire, interval) && i <= j < |wire|
    ensures wire[i].at <= wire[j].at
  {
    if i < j {
      Monotone(wire, interval, i, j - 1);
      assert wire[j - 1].at <= wire[j].read;
    }
  }

  // The writes issued in the half-open window from t that n intervals fill.
  function Window(wire: seq<Sent>, t: nat, width: nat): set<nat> {
    set i: nat | i < |wire| && t <= wire[i].at < t + width
  }

  /** In any run, a window of as many intervals as the configured limit sees at most twice the limit of writes. */
  lemma {:induction false} AtMostTwiceTheLimit(cfg: Config, backlog: seq<Pdu>, t: nat, es: seq<Event>, from: nat)
    requires Legal(Init(cfg, backlog, t), es)
    ensures var wire := After(Init(cfg, backlog, t), es).tx.wire;
            |Window(wire, from, cfg.txLimit * cfg.Interval())| <= 2 * cfg.txLimit
  {
    hide Step;
    OnTimeRun(cfg, backlog, t, es);
    var wire := After(Init(cfg, backlog, t), es).tx.wire;
    WindowBound(wire, cfg.Interval(), from, cfg.txLimit);
  }

  lemma WindowBound(wire: seq<Sent>, interval: nat, from: nat, n: nat)
    requires Paced(wire, interval)
    ensures |Window(wire, from, n * interval)| <= 2 * n
  {
    var w := Window(wire, from, n * interval);
    if w != {} {
      var lo := Least(w);
      forall i | i in w ensures i < lo + 2 * n {
        if i >= lo + 2 * n {
          TwoPerInterval(wire, interval, lo, n);
          Monotone(wire, interval, lo + 2 * n, i);
        }
      }
      RangeSize(w, lo, 2 * n);
    }
  }

  lemma RangeSize(w: set<nat>, lo: nat, n: nat)
    requires forall i | i in w :: lo <= i < lo + n
    ensures |w| <= n
  {
    if n > 0 {
      var last := lo + n - 1;
      RangeSize(w - {last}, lo, n - 1);
      assert w <= (w - {last}) + {last};
    } else {
      assert w == {};
    }
  }

  /** In figures: in every run, a second less one microsecond for each write of the limit sees at most twice the limit of
      writes; the microseconds are what the division of the second loses. */
  lemma {:induction false} RatePerSecond(cfg: Config, backlog: seq<Pdu>, t: nat, es: seq<Event>, from: nat)
    requires Legal(Init(cfg, backlog, t), es) && cfg.txLimit <= 1_000_000
    ensures |Window(After(Init(cfg, backlog, t), es).tx.wire, from, 1_000_000 - cfg.txLimit + 1)| <= 2 * cfg.txLimit
  {
    hide Step;
    AtMostTwiceTheLimit(cfg, backlog, t, es, from);
    DivisionLoses(cfg);
    var wire := After(Init(cfg, backlog, t), es).tx.wire;
    SmallerWindow(wire, from, 1_000_000 - cfg.txLimit + 1, cfg.txLimit * cfg.Interval());
  }

  predicate KeepsRate(wire: seq<Sent>, limit: nat, from: nat) {
    limit <= 1_000_000 ==> |Window(wire, from, 1_000_000 - limit + 1)| <= 2 * limit
  }

  lemma DivisionLoses(cfg: Config)
    ensures 1_000_000 - cfg.txLimit < cfg.txLimit * cfg.Interval() <= 1_000_000
  {
    var q, r := 1_000_000 / cfg.txLimit, 1_000_000 % cfg.txLimit;
    assert 1_000_000 == q * cfg.txLimit + r;
    assert cfg.Interval() == q;
  }

  lemma SmallerWindow(wire: seq<Sent>, from: nat, width: nat, wider: nat)
    requires width <= wider
    ensures |Window(wire, from, width)| <= |Window(wire, from, wider)|
  {
    assert Window(wire, from, width) <= Window(wire, from, wider);
    SubsetSize(Window(wire, from, width), Window(wire, from, wider));
  }

  lemma SubsetSize(a: set<nat>, b: set<nat>)
    requires a <= b
    ensures |a| <= |b|
  {
    if a != {} {
      var x :| x in a;
      SubsetSize(a - {x}, b - {x});
    }
  }

  /** The interval itself, which is what the limit means, is kept between two writes exactly when the first did not
      sleep or the second came late enough to need no throttle. */
  lemma IntervalKeptIff(wire: seq<Sent>, interval: nat, i: nat)
    requires Paced(wire, interval) && i + 1 < |wire|
    ensures wire[i].at + interval <= wire[i + 1].at <==>
            wire[i].at == wire[i].read || wire[i].at + interval <= wire[i + 1].read
  {
    assert Follows(wire[i], wire[i + 1], interval);
    assert i > 0 ==> Follows(wire[i - 1], wire[i], interval);
  }

  // n messages sent without a pause.
  function Burst(p: Pdu, n: nat): seq<Event> {
    if n == 0 then [] else Burst(p, n - 1) + [Send(p)]
  }

  ghost predicate InPairs(s: Session, u: Session, n: nat) {
    && u.ctl == s.ctl && u.tx.txQ.Empty() && u.tx.interval == s.tx.interval
    && |u.tx.wire| == |s.tx.wire| + n && u.tx.wire[..|s.tx.wire|] == s.tx.wire
    && forall i | |s.tx.wire| <= i < |u.tx.wire| :: u.tx.wire[i].at == s.tx.now + (i - |s.tx.wire| + 1) / 2 * s.tx.interval
  }

  /** The bound is tight: what a user sends a bound session in a burst goes out in pairs, one pair an interval. */
  lemma {:induction false} BurstGoesInPairs(s: Session, p: Pdu, n: nat)
    requires Sendable(s.ctl.state, p.id) && s.tx.txQ.Empty() && s.tx.throttleNext <= s.tx.now
    ensures Legal(s, Burst(p, n)) && InPairs(s, After(s, Burst(p, n)), n)
    ensures n > 0 ==> var u := After(s, Burst(p, n)).tx;
            u.now == s.tx.now + n / 2 * s.tx.interval && u.throttleNext == s.tx.now + (n + 1) / 2 * s.tx.interval
  {
    hide Step, Sendable;
    if n == 0 {
      LegalNone(s);
      assert s.tx.wire[..|s.tx.wire|] == s.tx.wire;
    } else {
      BurstGoesInPairs(s, p, n - 1);
      var v := After(s, Burst(p, n - 1));
      SendGoesOut(v, p);
      LegalSnoc(s, Burst(p, n - 1), Send(p));
      PairArithmetic(n, s.tx.interval);
      OneMorePaired(s, v, Step(v, Send(p)), n);
    }
  }

  lemma OneMorePaired(s: Session, v: Session, u: Session, n: nat)
    requires n > 0 && InPairs(s, v, n - 1) && u.ctl == v.ctl && u.tx.txQ.Empty() && u.tx.interval == v.tx.interval
    requires |u.tx.wire| == |v.tx.wire| + 1 && u.tx.wire[..|v.tx.wire|] == v.tx.wire
    requires u.tx.wire[|v.tx.wire|].at == s.tx.now + n / 2 * s.tx.interval
    ensures InPairs(s, u, n)
  {
    var base := |s.tx.wire|;
    assert u.tx.wire[..base] == u.tx.wire[..|v.tx.wire|][..base];
    forall i | base <= i < |u.tx.wire| ensures u.tx.wire[i].at == s.tx.now + (i - base + 1) / 2 * s.tx.interval {
      if i < |v.tx.wire| {
        assert u.tx.wire[i] == u.tx.wire[..|v.tx.wire|][i];
      }
    }
  }

  lemma PairArithmetic(n: nat, interval: nat)
    requires n > 0
    ensures (n + 1) / 2 * interval == (n - 1) / 2 * interval + interval
    ensures (n - 1) / 2 * interval <= n / 2 * interval
  {
    assert (n + 1) / 2 == (n - 1) / 2 + 1;
    if n % 2 == 0 {
      assert n / 2 == (n - 1) / 2 + 1;
    } else {
      assert n / 2 == (n - 1) / 2;
    }
  }

  // After these events come those others, and of these 2n are writes within n intervals.
  ghost predicate FillsWindow(init: Session, before: seq<Event>, burst: seq<Event>, n: nat) {
    && Legal(init, before) && Legal(init, before + burst)
    && var interval := init.cfg.Interval();
       |Window(After(init, before + burst).tx.wire, After(init, before).tx.now + interval, n * interval)| == 2 * n
  }

  /** So every configuration has a run whose last burst fills a window of n intervals with exactly 2n writes. */
  lemma {:induction false} BurstFillsWindow(cfg: Config, t: nat, p: Pdu, n: nat)
    requires Sendable(BoundStateOf(cfg.bindType), p.id) && cfg.Interval() > 0
    ensures FillsWindow(Init(cfg, [], t), BindRun(cfg), Burst(p, 2 * n + 1), n)
  {
    hide Step, Sendable, Paced, Burst;
    var init := Init(cfg, [], t);
    GetsReady(cfg, t);
    OnTimeRun(cfg, [], t, BindRun(cfg));
    var s := After(init, BindRun(cfg));
    BurstGoesInPairs(s, p, 2 * n + 1);
    LegalAppend(init, BindRun(cfg), Burst(p, 2 * n + 1));
    PairsFill(s, After(s, Burst(p, 2 * n + 1)), n);
  }

  /** And no slower: whatever the configuration, what a user sends a bound session at rest in a burst of twice the limit
      is all written within one second. */
  lemma {:induction false} BurstOutInOneSecond(s: Session, p: Pdu)
    requires Ready(s) && Sendable(s.ctl.state, p.id)
    ensures var es := Burst(p, 2 * s.cfg.txLimit);
            && Legal(s, es) && var wire := After(s, es).tx.wire;
            && |wire| == |s.tx.wire| + 2 * s.cfg.txLimit
            && forall i | |s.tx.wire| <= i < |wire| :: wire[i].at <= s.tx.now + 1_000_000
  {
    hide Step, Sendable, Burst;
    var limit, interval := s.cfg.txLimit, s.tx.interval;
    BurstGoesInPairs(s, p, 2 * limit);
    var wire := After(s, Burst(p, 2 * limit)).tx.wire;
    DivisionLoses(s.cfg);
    forall i | |s.tx.wire| <= i < |wire| ensures wire[i].at <= s.tx.now + 1_000_000 {
      var j := (i - |s.tx.wire| + 1) / 2;
      NoMore(j, limit, interval);
    }
  }

  lemma NoMore(a: nat, b: nat, interval: nat)
    requires a <= b
    ensures a * interval <= b * interval
  {
  }

  lemma PairsFill(s: Session, u: Session, n: nat)
    requires OnTime(s.tx) && s.tx.interval > 0 && InPairs(s, u, 2 * n + 1)
    ensures |Window(u.tx.wire, s.tx.now + s.tx.interval, n * s.tx.interval)| == 2 * n
  {
    hide OnTime;
    var base, interval := |s.tx.wire|, s.tx.interval;
    var w := Window(u.tx.wire, s.tx.now + interval, n * interval);
    forall i: nat ensures i in w <==> base + 1 <= i < base + 1 + 2 * n {
      if base <= i < |u.tx.wire| {
        PairInWindow(s.tx.now, interval, n, (i - base + 1) / 2);
      } else if i < base {
        assert u.tx.wire[i] == u.tx.wire[..base][i];
        WrittenBefore(s.tx, i);
      }
    }
    FullRange(w, base + 1, 2 * n);
  }

  lemma WrittenBefore(t: Transmitter, i: nat)
    requires OnTime(t) && i < |t.wire|
    ensures t.wire[i].at <= t.now
  {
    Monotone(t.wire, t.interval, i, |t.wire| - 1);
  }

  lemma PairInWindow(t: nat, interval: nat, n: nat, j: nat)
    requires interval > 0
    ensures t + interval <= t + j * interval < t + interval + n * interval <==> 1 <= j <= n
  {
    ScaleIff(1, j, interval);
    ScaleIff(n + 1, j, interval);
    assert (n + 1) * interval == n * interval + interval;
  }

  lemma ScaleIff(a: nat, b: nat, interval: nat)
    requires interval > 0
    ensures a <= b <==> a * interval <= b * interval
  {
    if a <= b {
      assert (b - a) * interval >= 0;
    } else {
      assert (a - b) * interval > 0;
    }
  }

  lemma FullRange(w: set<nat>, lo: nat, n: nat)
    requires forall i: nat :: i in w <==> lo <= i < lo + n
    ensures |w| == n
  {
    if n > 0 {
      var last := lo + n - 1;
      FullRange(w - {last}, lo, n - 1);
      assert w == (w - {last}) + {last};
    } else {
      assert w == {};
    }
  }
}
